/** `planRadarSourceIntake`: the planner's loops, and what they put into the plan. */
module RadarPlanner {
  import opened Common
  import opened RadarCsv
  import opened RadarIntake

  // ---------------------------------------------------------------- vocabularies

  const AUTHORITY_TYPES := [
    "official", "international_organization", "court", "government", "association", "professional_media",
    "legal_media", "law_firm", "ip_agency", "brand_media", "brand_consultancy", "business_media",
    "technology_media", "blog", "newsletter", "other"]
  const SOURCE_TYPES := [
    "news", "newsletter", "email_alert", "rss", "official_notice", "guideline", "fee", "legislation", "case_law",
    "client_alert", "article", "blog", "gazette", "consultation", "system_status", "sitemap", "api", "pdf", "other"]
  const PRIORITIES := ["S", "A", "B", "C"]
  const SUBSCRIPTION_STATUSES := [
    "not_checked", "available", "subscribed", "confirmed", "already_subscribed", "no_newsletter", "rss_only",
    "html_watch", "sitemap_watch", "api_available", "manual_required", "rejected", "failed", "inactive"]
  const CANDIDATE_STATUSES := ["new", "review", "promote", "reject", "duplicate"]
  const MATCH_TYPES := ["list_id", "sender_email", "sender_domain", "subject", "other"]
  const BLOCKED_STATUSES := ["manual_required", "rejected", "failed", "inactive"]
  const EMAIL_STATUSES := ["available", "subscribed", "confirmed", "already_subscribed"]

  // ---------------------------------------------------------------- acquisitions

  datatype AcquisitionKind = EMAIL | RSS | HTML_WATCH | SITEMAP | API | PDF_WATCH

  datatype Acquisition = Acquisition(kind: AcquisitionKind, locator: string, verified: bool)

  predicate SameTarget(a: Acquisition, b: Acquisition) {
    a.kind == b.kind && a.locator == b.locator
  }

  /** `addAcquisition` */
  function Add(acquisitions: seq<Acquisition>, proposal: Acquisition): seq<Acquisition> {
    if proposal.locator == "" || exists a <- acquisitions :: SameTarget(a, proposal) then acquisitions
    else acquisitions + [proposal]
  }

  function AddAll(acquisitions: seq<Acquisition>, proposals: seq<Acquisition>): seq<Acquisition>
    decreases |proposals|
  {
    if proposals == [] then acquisitions else AddAll(Add(acquisitions, proposals[0]), proposals[1..])
  }

  /** The proposals a source row makes, in order, before repeated ones are dropped. */
  function Direct(row: Row, status: string, confirmed: bool): seq<Acquisition> {
    var email := First(Optional(row, "newsletter_url"), First(Optional(row, "sender_email"), Optional(row, "list_id")));
    (if status in EMAIL_STATUSES && email.Some? then [Acquisition(EMAIL, email.value, confirmed)] else [])
    + Watch(RSS, Optional(row, "rss_url"))
    + Watch(SITEMAP, Optional(row, "sitemap_url"))
    + Watch(HTML_WATCH, Optional(row, "news_url"))
  }

  function First(a: Option<string>, b: Option<string>): Option<string> {
    if a.Some? then a else b
  }

  function Watch(kind: AcquisitionKind, locator: Option<string>): seq<Acquisition> {
    if locator.Some? then [Acquisition(kind, locator.value, false)] else []
  }

  /** The kinds inferred from the status and from what the row says in `other_acquisition`. */
  function Inferred(text: Text, row: Row, status: string): seq<AcquisitionKind> {
    var other := Optional(row, "other_acquisition");
    var lower := if other.Some? then text.lower(other.value) else "";
    (if status == "api_available" || text.contains(lower, "api") then [API] else [])
    + (if status == "html_watch" || text.contains(lower, "html") then [HTML_WATCH] else [])
    + (if status == "sitemap_watch" || text.contains(lower, "sitemap") then [SITEMAP] else [])
    + (if text.contains(lower, "pdf") then [PDF_WATCH] else [])
  }

  function LocatorFor(text: Text, row: Row, kind: AcquisitionKind): Option<string> {
    var other := Optional(row, "other_acquisition");
    First(if other.Some? then text.firstHttpUrl(other.value) else None,
          First(if kind == SITEMAP then Optional(row, "sitemap_url") else None,
                First(Optional(row, "news_url"), Optional(row, "homepage_url"))))
  }

  function InferredProposals(text: Text, row: Row, kinds: seq<AcquisitionKind>): seq<Acquisition> {
    if kinds == [] then []
    else Watch(kinds[0], LocatorFor(text, row, kinds[0])) + InferredProposals(text, row, kinds[1..])
  }

  function Proposals(text: Text, row: Row, status: string, confirmed: bool): seq<Acquisition> {
    Direct(row, status, confirmed) + InferredProposals(text, row, Inferred(text, row, status))
  }

  ghost predicate NoneTwice(acquisitions: seq<Acquisition>) {
    forall i, j | 0 <= i < j < |acquisitions| :: !SameTarget(acquisitions[i], acquisitions[j])
  }

  /** `all` continues `base`, repeats no target, has one for every proposal, and nothing else. */
  ghost predicate Gathers(base: seq<Acquisition>, proposals: seq<Acquisition>, all: seq<Acquisition>) {
    && base <= all && NoneTwice(all)
    && (forall p <- proposals | p.locator != "" :: exists a <- all :: SameTarget(a, p))
    && (forall a <- all :: a in base || (a in proposals && a.locator != ""))
  }

  /** The list built so far holds each target once, and a target for every proposal made. */
  lemma {:induction false} AddAllKeeps(acquisitions: seq<Acquisition>, proposals: seq<Acquisition>)
    requires NoneTwice(acquisitions)
    ensures Gathers(acquisitions, proposals, AddAll(acquisitions, proposals))
    decreases |proposals|
  {
    if proposals != [] {
      var more := Add(acquisitions, proposals[0]);
      AddKeeps(acquisitions, proposals[0]);
      assert NoneTwice(more);
      AddAllKeeps(more, proposals[1..]);
      hide Add, SameTarget, NoneTwice, AddAll;
      GathersOnward(acquisitions, proposals[0], proposals[1..], more, AddAll(more, proposals[1..]));
      assert proposals == [proposals[0]] + proposals[1..];
    }
  }

  lemma GathersOnward(base: seq<Acquisition>, p: Acquisition, rest: seq<Acquisition>, more: seq<Acquisition>, all: seq<Acquisition>)
    requires Gathers(base, [p], more) && Gathers(more, rest, all)
    ensures Gathers(base, [p] + rest, all)
  {
    hide SameTarget, NoneTwice;
    assert forall a <- more :: a in all;
    assert p in [p];
  }

  /** One proposal is added where its target is new. */
  lemma AddKeeps(acquisitions: seq<Acquisition>, p: Acquisition)
    requires NoneTwice(acquisitions)
    ensures Gathers(acquisitions, [p], Add(acquisitions, p))
  {
    var all := Add(acquisitions, p);
    assert SameTarget(p, p);
    if all != acquisitions {
      assert all[|acquisitions|] == p;
      forall i | 0 <= i < |acquisitions| ensures !SameTarget(all[i], p) {
        assert all[i] in acquisitions;
      }
    }
  }

  /** A source's acquisitions are its proposals with each target once: none is repeated, none is
      missing, and only a confirmed mail subscription is verified. */
  lemma AcquisitionsExact(text: Text, row: Row, status: string, confirmed: bool)
    ensures var all := AddAll([], Proposals(text, row, status, confirmed));
            && (forall i, j | 0 <= i < j < |all| :: !SameTarget(all[i], all[j]))
            && (forall p <- Proposals(text, row, status, confirmed) | p.locator != "" :: exists a <- all :: SameTarget(a, p))
            && (forall a <- all :: a in Proposals(text, row, status, confirmed) && a.locator != "")
            && (forall a <- all | a.verified :: confirmed && a.kind == EMAIL && status in EMAIL_STATUSES)
  {
    OnlyMailVerified(text, row, status, confirmed);
    hide AddAll, Proposals, EMAIL_STATUSES;
    AddAllKeeps([], Proposals(text, row, status, confirmed));
  }

  lemma OnlyMailVerified(text: Text, row: Row, status: string, confirmed: bool)
    ensures forall a <- Proposals(text, row, status, confirmed) | a.verified :: confirmed && a.kind == EMAIL && status in EMAIL_STATUSES
  {
    hide Inferred, Optional, EMAIL_STATUSES;
    InferredUnverified(text, row, Inferred(text, row, status));
  }

  lemma {:induction false} InferredUnverified(text: Text, row: Row, kinds: seq<AcquisitionKind>)
    ensures forall a <- InferredProposals(text, row, kinds) :: !a.verified
    decreases |kinds|
  {
    if kinds != [] {
      InferredUnverified(text, row, kinds[1..]);
    }
  }

  // ---------------------------------------------------------------- records

  datatype Rule = Rule(
    sourceId: string, ruleId: Option<string>, matchType: string, matchValue: string,
    gmailLabel: Option<string>, verified: bool, created: bool)

  datatype Evidence = Evidence(
    ruleId: Option<string>, matchType: string, matchValue: string, gmailLabel: Option<string>, verified: bool)

  datatype Subscription = Subscription(
    sourceId: string, action: Option<string>, confirmationRequired: Option<bool>, confirmationReceived: Option<bool>,
    confirmationCompleted: Option<bool>, manualRequired: Option<bool>)

  datatype Disposition = REVIEW | CANDIDATE_ONLY | BLOCKED

  datatype Source = Source(
    id: string, name: string, organization: string, authorityType: string, sourceType: string,
    priority: string, status: string, confirmed: bool, acquisitions: seq<Acquisition>,
    routingEvidence: seq<Evidence>, scores: seq<Option<real>>, disposition: Disposition)

  datatype Candidate = Candidate(
    id: string, name: string, url: string, estimatedPriority: Option<string>, status: string, disposition: Disposition)

  datatype Gap = Gap(jurisdiction: string, sourceCategory: string, missing: string)

  predicate RuleComplete(row: Row) {
    Optional(row, "source_id").Some? && Optional(row, "match_value").Some? && Member(row, "match_type", MATCH_TYPES).Some?
  }

  function EnumIssue(row: Row, file: File, field: string): Issue {
    Issue(ERROR, if Column(row, field) == "" then "MISSING_REQUIRED_VALUE" else "UNSUPPORTED_ENUM", file, Some(row.row), field)
  }

  function RuleOf(text: Text, row: Row): Rule {
    Rule(Column(row, "source_id"), Optional(row, "rule_id"), Column(row, "match_type"), Column(row, "match_value"),
         Optional(row, "gmail_label"), Boolean(text, row, "verified_from_real_email") == Some(true),
         Boolean(text, row, "created") == Some(true))
  }

  function EvidenceOf(rule: Rule): Evidence {
    Evidence(rule.ruleId, rule.matchType, rule.matchValue, rule.gmailLabel, rule.verified)
  }

  /** The rules of one source, in the order of the whole list. */
  function EvidenceFor(rules: seq<Rule>, sourceId: string): seq<Evidence> {
    if rules == [] then []
    else
      EvidenceFor(rules[..|rules| - 1], sourceId)
      + if rules[|rules| - 1].sourceId == sourceId then [EvidenceOf(rules[|rules| - 1])] else []
  }

  predicate SubscriptionComplete(row: Row) {
    Optional(row, "source_id").Some?
  }

  function SubscriptionOf(text: Text, row: Row): Subscription {
    Subscription(Column(row, "source_id"), Optional(row, "action"), Boolean(text, row, "confirmation_required"),
                 Boolean(text, row, "confirmation_received"), Boolean(text, row, "confirmation_completed"),
                 Boolean(text, row, "manual_required"))
  }

  predicate SourceComplete(row: Row) {
    Optional(row, "source_id").Some? && Optional(row, "name").Some? && Optional(row, "organization").Some? && EnumsComplete(row)
  }

  predicate EnumsComplete(row: Row) {
    && Member(row, "authority_type", AUTHORITY_TYPES).Some? && Member(row, "source_type", SOURCE_TYPES).Some?
    && Member(row, "priority", PRIORITIES).Some? && Member(row, "subscription_status", SUBSCRIPTION_STATUSES).Some?
  }

  function Confirmed(text: Text, row: Row): bool {
    match Boolean(text, row, "confirmed")
    case Some(explicit) => explicit
    case None => Column(row, "subscription_status") == "confirmed"
  }

  function SourceDisposition(status: string, priority: string, acquisitions: seq<Acquisition>): Disposition {
    if status in BLOCKED_STATUSES then BLOCKED
    else if status == "not_checked" || priority == "C" || acquisitions == [] then CANDIDATE_ONLY
    else REVIEW
  }

  function Scores(text: Text, row: Row): seq<Option<real>> {
    [Score(text, row, "source_quality_score"), Score(text, row, "authority_score"), Score(text, row, "originality_score"),
     Score(text, row, "freshness_score"), Score(text, row, "signal_score"), Score(text, row, "noise_score")]
  }

  function SourceOf(text: Text, rules: seq<Rule>, row: Row): Source {
    var status, priority := Column(row, "subscription_status"), Column(row, "priority");
    var acquisitions := AddAll([], Proposals(text, row, status, Confirmed(text, row)));
    Source(Column(row, "source_id"), Column(row, "name"), Column(row, "organization"), Column(row, "authority_type"),
           Column(row, "source_type"), priority, status, Confirmed(text, row), acquisitions,
           EvidenceFor(rules, Column(row, "source_id")), Scores(text, row),
           SourceDisposition(status, priority, acquisitions))
  }

  predicate CandidateComplete(row: Row) {
    && Optional(row, "candidate_id").Some? && Optional(row, "name").Some? && Optional(row, "url").Some?
    && Member(row, "status", CANDIDATE_STATUSES).Some?
  }

  function CandidateOf(row: Row): Candidate {
    var status := Column(row, "status");
    Candidate(Column(row, "candidate_id"), Column(row, "name"), Column(row, "url"),
              Member(row, "estimated_priority", PRIORITIES), status,
              if status == "reject" || status == "duplicate" then BLOCKED
              else if status == "promote" then REVIEW else CANDIDATE_ONLY)
  }

  predicate GapComplete(row: Row) {
    Optional(row, "jurisdiction").Some? && Optional(row, "source_category").Some? && Optional(row, "missing").Some?
  }

  function GapOf(row: Row): Gap {
    Gap(Column(row, "jurisdiction"), Column(row, "source_category"), Column(row, "missing"))
  }

  function Map<A, B>(f: A -> B, s: seq<A>): (r: seq<B>)
    ensures |r| == |s| && forall i | 0 <= i < |s| :: r[i] == f(s[i])
  {
    seq(|s|, i requires 0 <= i < |s| => f(s[i]))
  }

  function RulesFrom(text: Text, rows: seq<Row>): seq<Rule> { Map(row => RuleOf(text, row), rows) }

  function SubscriptionsFrom(text: Text, rows: seq<Row>): seq<Subscription> { Map(row => SubscriptionOf(text, row), rows) }

  function SourcesFrom(text: Text, rules: seq<Rule>, rows: seq<Row>): seq<Source> { Map(row => SourceOf(text, rules, row), rows) }

  function SourceId(row: Row): string { Column(row, "source_id") }

  function CandidateId(row: Row): string { Column(row, "candidate_id") }

  function KeptRules(rows: seq<Row>): seq<Row> { Kept(rows, RuleComplete, SourceId, false) }

  function KeptSubscriptions(rows: seq<Row>): seq<Row> { Kept(rows, SubscriptionComplete, SourceId, false) }

  function KeptSources(rows: seq<Row>): seq<Row> { Kept(rows, SourceComplete, SourceId, true) }

  function KeptCandidates(rows: seq<Row>): seq<Row> { Kept(rows, CandidateComplete, CandidateId, true) }

  function KeptGaps(rows: seq<Row>): seq<Row> { Kept(rows, GapComplete, SourceId, false) }

  /** The columns a file must have. */
  function RequiredHeaders(file: File): set<string> {
    match file
    case SourceRegistry => {"source_id", "name", "organization", "authority_type", "source_type", "priority", "subscription_status"}
    case Candidates => {"candidate_id", "name", "url", "status"}
    case MissingCoverage => {"jurisdiction", "source_category", "missing"}
    case SubscriptionLog => {"source_id"}
    case RulesMap => {"source_id", "match_type", "match_value"}
  }

  /** The lists the source checks, one per file. */
  function HeaderList(file: File): seq<string> {
    match file
    case SourceRegistry => ["source_id", "name", "organization", "authority_type", "source_type", "priority", "subscription_status"]
    case Candidates => ["candidate_id", "name", "url", "status"]
    case MissingCoverage => ["jurisdiction", "source_category", "missing"]
    case SubscriptionLog => ["source_id"]
    case RulesMap => ["source_id", "match_type", "match_value"]
  }

  lemma HeaderListIs(file: File)
    ensures forall header :: header in RequiredHeaders(file) ==> header in HeaderList(file)
  {
    var list := HeaderList(file);
    forall header | header in RequiredHeaders(file) ensures header in list {
      assert list[0] in list && (|list| > 2 ==> list[1] in list && list[2] in list) && (|list| > 3 ==> list[3] in list)
          && (|list| > 6 ==> list[4] in list && list[5] in list && list[6] in list);
    }
  }

  ghost predicate HasHeaders(file: File, content: string) {
    forall header <- RequiredHeaders(file) :: header in Document(Some(content)).headers
  }

  /** One warning for each of these files that is not there. */
  function MissingOf(files: map<File, string>, wanted: seq<File>): seq<Issue> {
    if wanted == [] then []
    else
      var last := wanted[|wanted| - 1];
      MissingOf(files, wanted[..|wanted| - 1]) + if last in files then [] else [Issue(WARNING, "MISSING_FILE", last, None, "")]
  }

  // ---------------------------------------------------------------- the planner

  class Planner {
    const text: Text
    var issues: seq<Issue>
    var routing: seq<Rule>
    var routingBySource: map<string, seq<Evidence>>
    var subscriptions: seq<Subscription>
    var sources: seq<Source>
    var seenSources: set<string>
    var candidates: seq<Candidate>
    var seenCandidates: set<string>
    var gaps: seq<Gap>

    constructor (text: Text)
      ensures this.text == text && issues == [] && routing == [] && routingBySource == map[] && subscriptions == []
      ensures sources == [] && seenSources == {} && candidates == [] && seenCandidates == {} && gaps == []
    {
      this.text, issues, routing, routingBySource, subscriptions := text, [], [], map[], [];
      sources, seenSources, candidates, seenCandidates, gaps := [], {}, [], {}, [];
    }

    /** `pushIssue`, for an issue about a row. */
    method Report(severity: Severity, code: string, file: File, row: nat, field: string)
      modifies this`issues
      ensures issues == old(issues) + [Issue(severity, code, file, Some(row), field)]
      ensures Adds(old(issues), issues, file, row, severity == ERROR)
    {
      AddsOne(issues, Issue(severity, code, file, Some(row), field));
      issues := issues + [Issue(severity, code, file, Some(row), field)];
    }

    method RequiredValue(row: Row, file: File, field: string) returns (value: Option<string>)
      modifies this`issues
      ensures value == Optional(row, field)
      ensures Adds(old(issues), issues, file, row.row, value.None?)
      ensures value.None? ==> issues == old(issues) + [Issue(ERROR, "MISSING_REQUIRED_VALUE", file, Some(row.row), field)]
    {
      value := Optional(row, field);
      if value.None? {
        Report(ERROR, "MISSING_REQUIRED_VALUE", file, row.row, field);
      }
    }

    method ParseEnum(row: Row, file: File, field: string, values: seq<string>) returns (value: Option<string>)
      modifies this`issues
      ensures value == Member(row, field, values)
      ensures Adds(old(issues), issues, file, row.row, value.None?)
      ensures value.None? ==> issues == old(issues) + [EnumIssue(row, file, field)]
    {
      value := Member(row, field, values);
      if value.None? {
        Report(ERROR, EnumIssue(row, file, field).code, file, row.row, field);
      }
    }

    /** A value that is not a boolean is only warned about. */
    method ParseBoolean(row: Row, file: File, field: string) returns (value: Option<bool>)
      modifies this`issues
      ensures value == Boolean(text, row, field)
      ensures Adds(old(issues), issues, file, row.row, false)
      ensures issues == old(issues) + if value.None? && text.lower(Column(row, field)) != ""
                                      then [Issue(WARNING, "INVALID_BOOLEAN", file, Some(row.row), field)] else []
    {
      value := Boolean(text, row, field);
      if value.None? && text.lower(Column(row, field)) != "" {
        Report(WARNING, "INVALID_BOOLEAN", file, row.row, field);
      }
    }

    method ParseScore(row: Row, field: string) returns (value: Option<real>)
      modifies this`issues
      ensures value == Score(text, row, field)
      ensures Adds(old(issues), issues, SourceRegistry, row.row, false)
      ensures issues == old(issues) + if value.None? && Column(row, field) != ""
                                      then [Issue(WARNING, "INVALID_SCORE", SourceRegistry, Some(row.row), field)] else []
    {
      value := Score(text, row, field);
      if value.None? && Column(row, field) != "" {
        Report(WARNING, "INVALID_SCORE", SourceRegistry, row.row, field);
      }
    }

    // -------------------------------------------------------------- rules_map.csv

    /** The per-source index of the routing rules. */
    ghost predicate RoutingIndexed()
      reads this`routing, this`routingBySource
    {
      forall id: string :: (if id in routingBySource then routingBySource[id] else []) == EvidenceFor(routing, id)
    }

    method CheckRule(row: Row) returns (ok: bool)
      modifies this`issues
      ensures ok == RuleComplete(row)
      ensures Adds(old(issues), issues, RulesMap, row.row, !ok)
    {
      hide Optional, Member, MATCH_TYPES;
      var sourceId := RequiredValue(row, RulesMap, "source_id");
      var matchValue := RequiredValue(row, RulesMap, "match_value");
      var matchType := ParseEnum(row, RulesMap, "match_type", MATCH_TYPES);
      ok := sourceId.Some? && matchValue.Some? && matchType.Some?;
    }

    method PlanRule(row: Row)
      requires RoutingIndexed()
      modifies this`issues, this`routing, this`routingBySource
      ensures RoutingIndexed()
      ensures Adds(old(issues), issues, RulesMap, row.row, !RuleComplete(row))
      ensures routing == old(routing) + if RuleComplete(row) then [RuleOf(text, row)] else []
    {
      hide RoutingIndexed, Optional, Boolean, Column, RuleComplete;
      var ok := CheckRule(row);
      if !ok { return; }
      var verified := ParseBoolean(row, RulesMap, "verified_from_real_email");
      var created := ParseBoolean(row, RulesMap, "created");
      var rule := Rule(Column(row, "source_id"), Optional(row, "rule_id"), Column(row, "match_type"), Column(row, "match_value"),
                       Optional(row, "gmail_label"), verified == Some(true), created == Some(true));
      Index(rule);
    }

    method Index(rule: Rule)
      requires RoutingIndexed()
      modifies this`routing, this`routingBySource
      ensures RoutingIndexed() && routing == old(routing) + [rule]
    {
      var known := if rule.sourceId in routingBySource then routingBySource[rule.sourceId] else [];
      routing := routing + [rule];
      routingBySource := routingBySource[rule.sourceId := known + [EvidenceOf(rule)]];
      assert routing[..|routing| - 1] == old(routing);
    }

    method PlanRules(rows: seq<Row>)
      requires Numbered(rows) && routing == [] && RoutingIndexed()
      modifies this`issues, this`routing, this`routingBySource
      ensures RoutingIndexed()
      ensures routing == RulesFrom(text, KeptRules(rows))
      ensures Accounts(old(issues), issues, RulesMap, rows, KeptRules(rows))
    {
      hide RoutingIndexed, Adds, RuleComplete, RuleOf;
      StartAccounts(issues, RulesMap, rows);
      for i := 0 to |rows|
        invariant RoutingIndexed()
        invariant routing == RulesFrom(text, KeptRules(rows[..i]))
        invariant Accounts(old(issues), issues, RulesMap, rows[..i], KeptRules(rows[..i]))
      {
        ghost var before := issues;
        PlanRule(rows[i]);
        OneMoreRow(rows, i, RuleComplete, SourceId, false);
        ContinueAccounts(old(issues), before, issues, RulesMap, rows, i, KeptRules(rows[..i]), KeptRules(rows[..i + 1]), RuleComplete(rows[i]));
      }
      assert rows[..|rows|] == rows;
    }

    // -------------------------------------------------------------- subscription_log.csv

    method PlanSubscription(row: Row)
      modifies this`issues, this`subscriptions
      ensures Adds(old(issues), issues, SubscriptionLog, row.row, !SubscriptionComplete(row))
      ensures subscriptions == old(subscriptions) + if SubscriptionComplete(row) then [SubscriptionOf(text, row)] else []
    {
      var sourceId := RequiredValue(row, SubscriptionLog, "source_id");
      if sourceId.None? { return; }
      var required := ParseBoolean(row, SubscriptionLog, "confirmation_required");
      var received := ParseBoolean(row, SubscriptionLog, "confirmation_received");
      var completed := ParseBoolean(row, SubscriptionLog, "confirmation_completed");
      var manual := ParseBoolean(row, SubscriptionLog, "manual_required");
      subscriptions := subscriptions + [Subscription(sourceId.value, Optional(row, "action"), required, received, completed, manual)];
    }

    method PlanSubscriptions(rows: seq<Row>)
      requires Numbered(rows) && subscriptions == []
      modifies this`issues, this`subscriptions
      ensures subscriptions == SubscriptionsFrom(text, KeptSubscriptions(rows))
      ensures Accounts(old(issues), issues, SubscriptionLog, rows, KeptSubscriptions(rows))
    {
      hide Adds, SubscriptionComplete, SubscriptionOf;
      StartAccounts(issues, SubscriptionLog, rows);
      for i := 0 to |rows|
        invariant subscriptions == SubscriptionsFrom(text, KeptSubscriptions(rows[..i]))
        invariant Accounts(old(issues), issues, SubscriptionLog, rows[..i], KeptSubscriptions(rows[..i]))
      {
        ghost var before := issues;
        PlanSubscription(rows[i]);
        OneMoreRow(rows, i, SubscriptionComplete, SourceId, false);
        ContinueAccounts(old(issues), before, issues, SubscriptionLog, rows, i, KeptSubscriptions(rows[..i]), KeptSubscriptions(rows[..i + 1]), SubscriptionComplete(rows[i]));
      }
      assert rows[..|rows|] == rows;
    }

    // -------------------------------------------------------------- source_registry.csv

    /** `buildSourceAcquisitions` */
    method BuildAcquisitions(row: Row, status: string, confirmed: bool) returns (acquisitions: seq<Acquisition>)
      modifies this`issues
      ensures acquisitions == AddAll([], Proposals(text, row, status, confirmed))
      ensures Adds(old(issues), issues, SourceRegistry, row.row, false)
    {
      hide Adds, Add, AddAll, Direct, Inferred, LocatorFor;
      acquisitions := AddAll([], Direct(row, status, confirmed));
      var kinds := Inferred(text, row, status);
      AddAllAppend([], Direct(row, status, confirmed), InferredProposals(text, row, kinds));
      AddsNothing(issues, SourceRegistry, row.row);
      for i := 0 to |kinds|
        invariant AddAll(acquisitions, InferredProposals(text, row, kinds[i..])) == AddAll([], Proposals(text, row, status, confirmed))
        invariant Adds(old(issues), issues, SourceRegistry, row.row, false)
      {
        var locator := LocatorFor(text, row, kinds[i]);
        assert kinds[i..][1..] == kinds[i + 1..];
        AddAllAppend(acquisitions, Watch(kinds[i], locator), InferredProposals(text, row, kinds[i + 1..]));
        AddAllOne(acquisitions, kinds[i], locator);
        if locator.Some? && locator.value != "" {
          acquisitions := Add(acquisitions, Acquisition(kinds[i], locator.value, false));
        } else {
          ghost var before := issues;
          Report(WARNING, "MISSING_ACQUISITION_LOCATOR", SourceRegistry, row.row, "other_acquisition");
          AddsTwice(old(issues), before, issues, SourceRegistry, row.row);
        }
      }
      AddAllNothing(acquisitions);
      assert kinds[|kinds|..] == [];
      if status == "rss_only" && forall a <- acquisitions :: a.kind != RSS {
        ghost var before := issues;
        Report(WARNING, "MISSING_ACQUISITION_LOCATOR", SourceRegistry, row.row, "rss_url");
        AddsTwice(old(issues), before, issues, SourceRegistry, row.row);
      }
    }

    method AdvisoryScores(row: Row) returns (scores: seq<Option<real>>)
      modifies this`issues
      ensures scores == Scores(text, row)
      ensures Adds(old(issues), issues, SourceRegistry, row.row, false)
    {
      hide Score;
      var quality := ParseScore(row, "source_quality_score");
      var authority := ParseScore(row, "authority_score");
      var originality := ParseScore(row, "originality_score");
      var freshness := ParseScore(row, "freshness_score");
      var signal := ParseScore(row, "signal_score");
      var noise := ParseScore(row, "noise_score");
      scores := [quality, authority, originality, freshness, signal, noise];
    }

    /** The required columns of a source row; every one of them is reported on. */
    method CheckSource(row: Row) returns (ok: bool)
      modifies this`issues
      ensures ok == SourceComplete(row)
      ensures Adds(old(issues), issues, SourceRegistry, row.row, !ok)
    {
      hide Optional, Member;
      var sourceId := RequiredValue(row, SourceRegistry, "source_id");
      var name := RequiredValue(row, SourceRegistry, "name");
      var organization := RequiredValue(row, SourceRegistry, "organization");
      var enums := CheckSourceEnums(row);
      ok := sourceId.Some? && name.Some? && organization.Some? && enums;
    }

    method CheckSourceEnums(row: Row) returns (ok: bool)
      modifies this`issues
      ensures ok == EnumsComplete(row)
      ensures Adds(old(issues), issues, SourceRegistry, row.row, !ok)
    {
      hide Optional, Member, AUTHORITY_TYPES, SOURCE_TYPES, PRIORITIES, SUBSCRIPTION_STATUSES;
      var authorityType := ParseEnum(row, SourceRegistry, "authority_type", AUTHORITY_TYPES);
      var sourceType := ParseEnum(row, SourceRegistry, "source_type", SOURCE_TYPES);
      var priority := ParseEnum(row, SourceRegistry, "priority", PRIORITIES);
      var status := ParseEnum(row, SourceRegistry, "subscription_status", SUBSCRIPTION_STATUSES);
      ok := authorityType.Some? && sourceType.Some? && priority.Some? && status.Some?;
    }

    method PlanSource(row: Row)
      requires RoutingIndexed()
      modifies this`issues, this`sources, this`seenSources
      ensures var keep := SourceComplete(row) && SourceId(row) !in old(seenSources);
              && Adds(old(issues), issues, SourceRegistry, row.row, !keep)
              && sources == old(sources) + (if keep then [SourceOf(text, routing, row)] else [])
              && seenSources == old(seenSources) + if keep then {SourceId(row)} else {}
    {
      hide SourceComplete, Column, Proposals, AddAll, Scores, EvidenceFor, SourceDisposition;
      var ok := CheckSource(row);
      if !ok { return; }
      var id := Column(row, "source_id");
      if id in seenSources {
        Report(ERROR, "DUPLICATE_ID", SourceRegistry, row.row, "source_id");
        return;
      }
      seenSources := seenSources + {id};
      var explicitly := ParseBoolean(row, SourceRegistry, "confirmed");
      var status, priority := Column(row, "subscription_status"), Column(row, "priority");
      var confirmed := if explicitly.Some? then explicitly.value else status == "confirmed";
      var acquisitions := BuildAcquisitions(row, status, confirmed);
      var evidence := if id in routingBySource then routingBySource[id] else [];
      var scores := AdvisoryScores(row);
      sources := sources + [Source(
        id, Column(row, "name"), Column(row, "organization"), Column(row, "authority_type"), Column(row, "source_type"),
        priority, status, confirmed, acquisitions, evidence, scores, SourceDisposition(status, priority, acquisitions))];
    }

    method PlanSources(rows: seq<Row>)
      requires Numbered(rows) && sources == [] && seenSources == {} && RoutingIndexed()
      modifies this`issues, this`sources, this`seenSources
      ensures sources == SourcesFrom(text, routing, KeptSources(rows))
      ensures Accounts(old(issues), issues, SourceRegistry, rows, KeptSources(rows))
    {
      hide RoutingIndexed, Adds, SourceComplete, SourceOf, SourceId;
      StartAccounts(issues, SourceRegistry, rows);
      for i := 0 to |rows|
        invariant sources == SourcesFrom(text, routing, KeptSources(rows[..i]))
        invariant seenSources == Ids(SourceId, KeptSources(rows[..i]))
        invariant Accounts(old(issues), issues, SourceRegistry, rows[..i], KeptSources(rows[..i]))
      {
        ghost var before, kept := issues, KeptSources(rows[..i]);
        PlanSource(rows[i]);
        OneMoreRow(rows, i, SourceComplete, SourceId, true);
        IdsAppend(SourceId, kept, rows[i]);
        ContinueAccounts(old(issues), before, issues, SourceRegistry, rows, i, kept, KeptSources(rows[..i + 1]), Keeps(kept, rows[i], SourceComplete, SourceId, true));
      }
      assert rows[..|rows|] == rows;
    }

    // -------------------------------------------------------------- candidates.csv

    method CheckCandidate(row: Row) returns (ok: bool)
      modifies this`issues
      ensures ok == CandidateComplete(row)
      ensures Adds(old(issues), issues, Candidates, row.row, !ok)
    {
      hide Optional, Member, CANDIDATE_STATUSES;
      var id := RequiredValue(row, Candidates, "candidate_id");
      var name := RequiredValue(row, Candidates, "name");
      var url := RequiredValue(row, Candidates, "url");
      var status := ParseEnum(row, Candidates, "status", CANDIDATE_STATUSES);
      ok := id.Some? && name.Some? && url.Some? && status.Some?;
    }

    method PlanCandidate(row: Row)
      modifies this`issues, this`candidates, this`seenCandidates
      ensures var keep := CandidateComplete(row) && CandidateId(row) !in old(seenCandidates);
              && Adds(old(issues), issues, Candidates, row.row, !keep)
              && candidates == old(candidates) + (if keep then [CandidateOf(row)] else [])
              && seenCandidates == old(seenCandidates) + if keep then {CandidateId(row)} else {}
    {
      hide Column, CandidateComplete, Member, Optional, CANDIDATE_STATUSES, PRIORITIES;
      var ok := CheckCandidate(row);
      var priority := Member(row, "estimated_priority", PRIORITIES);
      if Optional(row, "estimated_priority").Some? && priority.None? {
        Report(WARNING, "UNSUPPORTED_ENUM", Candidates, row.row, "estimated_priority");
      }
      if !ok { return; }
      var id, status := Column(row, "candidate_id"), Column(row, "status");
      if id in seenCandidates {
        Report(ERROR, "DUPLICATE_ID", Candidates, row.row, "candidate_id");
        return;
      }
      seenCandidates := seenCandidates + {id};
      candidates := candidates + [Candidate(id, Column(row, "name"), Column(row, "url"), priority, status,
        if status == "reject" || status == "duplicate" then BLOCKED
        else if status == "promote" then REVIEW else CANDIDATE_ONLY)];
    }

    method PlanCandidates(rows: seq<Row>)
      requires Numbered(rows) && candidates == [] && seenCandidates == {}
      modifies this`issues, this`candidates, this`seenCandidates
      ensures candidates == Map(CandidateOf, KeptCandidates(rows))
      ensures Accounts(old(issues), issues, Candidates, rows, KeptCandidates(rows))
    {
      hide Adds, Accounts, Kept, Keeps, Ids, CandidateComplete, CandidateOf, CandidateId;
      NothingKept(CandidateComplete, CandidateId, true);
      StartAccounts(issues, Candidates, rows);
      for i := 0 to |rows|
        invariant candidates == Map(CandidateOf, KeptCandidates(rows[..i]))
        invariant seenCandidates == Ids(CandidateId, KeptCandidates(rows[..i]))
        invariant Accounts(old(issues), issues, Candidates, rows[..i], KeptCandidates(rows[..i]))
      {
        ghost var before, kept := issues, KeptCandidates(rows[..i]);
        PlanCandidate(rows[i]);
        OneMoreRow(rows, i, CandidateComplete, CandidateId, true);
        IdsAppend(CandidateId, kept, rows[i]);
        KeepsById(kept, rows[i], CandidateComplete, CandidateId);
        ContinueAccounts(old(issues), before, issues, Candidates, rows, i, kept, KeptCandidates(rows[..i + 1]), Keeps(kept, rows[i], CandidateComplete, CandidateId, true));
      }
      assert rows[..|rows|] == rows;
    }

    // -------------------------------------------------------------- missing_coverage.csv

    method PlanGap(row: Row)
      modifies this`issues, this`gaps
      ensures Adds(old(issues), issues, MissingCoverage, row.row, !GapComplete(row))
      ensures gaps == old(gaps) + if GapComplete(row) then [GapOf(row)] else []
    {
      var jurisdiction := RequiredValue(row, MissingCoverage, "jurisdiction");
      var category := RequiredValue(row, MissingCoverage, "source_category");
      var missing := RequiredValue(row, MissingCoverage, "missing");
      if jurisdiction.None? || category.None? || missing.None? { return; }
      gaps := gaps + [Gap(jurisdiction.value, category.value, missing.value)];
    }

    method PlanGaps(rows: seq<Row>)
      requires Numbered(rows) && gaps == []
      modifies this`issues, this`gaps
      ensures gaps == Map(GapOf, KeptGaps(rows))
      ensures Accounts(old(issues), issues, MissingCoverage, rows, KeptGaps(rows))
    {
      hide Adds, GapComplete, GapOf;
      StartAccounts(issues, MissingCoverage, rows);
      for i := 0 to |rows|
        invariant gaps == Map(GapOf, KeptGaps(rows[..i]))
        invariant Accounts(old(issues), issues, MissingCoverage, rows[..i], KeptGaps(rows[..i]))
      {
        ghost var before := issues;
        PlanGap(rows[i]);
        OneMoreRow(rows, i, GapComplete, SourceId, false);
        ContinueAccounts(old(issues), before, issues, MissingCoverage, rows, i, KeptGaps(rows[..i]), KeptGaps(rows[..i + 1]), GapComplete(rows[i]));
      }
      assert rows[..|rows|] == rows;
    }

    // -------------------------------------------------------------- the whole plan

    /** An issue about a file as a whole names no row. */
    method ReportFile(severity: Severity, code: string, file: File, field: string)
      modifies this`issues
      ensures Noted(old(issues), issues)
      ensures issues == old(issues) + [Issue(severity, code, file, None, field)]
      ensures severity == ERROR ==> !NoErrors(issues)
    {
      var issue := Issue(severity, code, file, None, field);
      forall f {
        ErrorRowsAppend(issues, issue, f);
      }
      issues := issues + [issue];
      assert issues[|issues| - 1] == issue;
    }

    /** `parseDocument`: an absent file and one that cannot be read have no rows. */
    method ParseDocument(file: File, content: Option<string>, required: seq<string>) returns (csv: Csv)
      modifies this`issues
      ensures csv == Document(content)
      ensures Noted(old(issues), issues)
      ensures NoErrors(issues) && content.Some? ==> Records(content.value).Ok? && forall header <- required :: header in csv.headers
    {
      csv := Csv([], []);
      if content.None? { return; }
      var parsed := ParseCsv(content.value);
      if parsed.Err? {
        ReportFile(ERROR, "CSV_PARSE_ERROR", file, "");
        return;
      }
      csv := parsed.value;
      for i := 0 to |required|
        invariant Noted(old(issues), issues)
        invariant NoErrors(issues) ==> forall header <- required[..i] :: header in csv.headers
      {
        ghost var before := issues;
        if required[i] !in csv.headers {
          ReportFile(ERROR, "MISSING_HEADER", file, required[i]);
        }
        NotedTwice(old(issues), before, issues);
        assert required[..i + 1] == required[..i] + [required[i]];
      }
    }

    method CheckFiles(files: map<File, string>)
      modifies this`issues
      ensures Noted(old(issues), issues)
      ensures NoErrors(issues) ==> SourceRegistry in files
      ensures issues == old(issues) + (if SourceRegistry in files then [] else [Issue(ERROR, "MISSING_FILE", SourceRegistry, None, "")])
                        + MissingOf(files, [Candidates, MissingCoverage, SubscriptionLog, RulesMap])
    {
      ghost var before := issues;
      if SourceRegistry !in files { ReportFile(ERROR, "MISSING_FILE", SourceRegistry, ""); }
      ghost var first := issues;
      var others := [Candidates, MissingCoverage, SubscriptionLog, RulesMap];
      for i := 0 to |others|
        invariant Noted(old(issues), issues)
        invariant NoErrors(issues) ==> SourceRegistry in files
        invariant issues == first + MissingOf(files, others[..i])
      {
        before := issues;
        assert others[..i + 1][..i] == others[..i];
        if others[i] !in files { ReportFile(WARNING, "MISSING_FILE", others[i], ""); }
        NotedTwice(old(issues), before, issues);
      }
      assert others[..|others|] == others;
    }

    /** `planRadarSourceIntake`. In every file the records are, in order, those of the kept rows, and
        the rows that errors name are exactly the others. */
    method Plan(files: map<File, string>)
      requires issues == [] && routing == [] && routingBySource == map[] && subscriptions == []
      requires sources == [] && seenSources == {} && candidates == [] && seenCandidates == {} && gaps == []
      modifies this
      ensures routing == RulesFrom(text, KeptRules(RowsOf(files, RulesMap)))
      ensures subscriptions == SubscriptionsFrom(text, KeptSubscriptions(RowsOf(files, SubscriptionLog)))
      ensures sources == SourcesFrom(text, routing, KeptSources(RowsOf(files, SourceRegistry)))
      ensures candidates == Map(CandidateOf, KeptCandidates(RowsOf(files, Candidates)))
      ensures gaps == Map(GapOf, KeptGaps(RowsOf(files, MissingCoverage)))
      ensures forall file :: ErrorRows(issues, file) == Numbers(RowsOf(files, file)) - Numbers(KeptOf(files, file))
      ensures forall file :: OneRecordEach(files, issues, file)
      ensures NoErrors(issues) ==> forall file :: AllRepresented(files, file)
      ensures NoErrors(issues) ==> SourceRegistry in files
      ensures NoErrors(issues) ==> forall file | file in files :: Records(files[file]).Ok? && HasHeaders(file, files[file])
    {
      hide OneRecordEach, AllRepresented, NoErrors, Document, ErrorRows, Numbers, Records, HasHeaders;
      hide KeptOf, KeptRules, KeptSources, KeptSubscriptions, KeptCandidates, KeptGaps, RulesFrom, SourcesFrom, SubscriptionsFrom, Map;
      var tables := ParseAll(files);
      ghost var parsed := issues;
      PlanTables(files, tables);
      ErrorsStay(parsed, issues);
      PlanMeans(files, issues);
    }

    /** The five loops. */
    method PlanTables(files: map<File, string>, tables: map<File, Csv>)
      requires routing == [] && routingBySource == map[] && subscriptions == []
      requires sources == [] && seenSources == {} && candidates == [] && seenCandidates == {} && gaps == []
      requires tables.Keys == {SourceRegistry, Candidates, MissingCoverage, SubscriptionLog, RulesMap}
      requires forall file | file in tables :: tables[file].rows == RowsOf(files, file)
      requires forall file :: ErrorRows(issues, file) == {}
      modifies this
      ensures routing == RulesFrom(text, KeptRules(RowsOf(files, RulesMap)))
      ensures subscriptions == SubscriptionsFrom(text, KeptSubscriptions(RowsOf(files, SubscriptionLog)))
      ensures sources == SourcesFrom(text, routing, KeptSources(RowsOf(files, SourceRegistry)))
      ensures candidates == Map(CandidateOf, KeptCandidates(RowsOf(files, Candidates)))
      ensures gaps == Map(GapOf, KeptGaps(RowsOf(files, MissingCoverage)))
      ensures old(issues) <= issues
      ensures forall file :: ErrorRows(issues, file) == Numbers(RowsOf(files, file)) - Numbers(KeptOf(files, file))
    {
      hide RoutingIndexed, Accounts, Document, RowsOf, ErrorRows, Numbers, KeptRules, KeptSources, KeptSubscriptions, KeptCandidates, KeptGaps;
      ghost var i6 := issues;
      DocumentsNumbered(files);
      NothingRouted();
      PlanRules(tables[RulesMap].rows);
      ghost var i7 := issues;
      PlanSubscriptions(tables[SubscriptionLog].rows);
      ghost var i8 := issues;
      PlanSources(tables[SourceRegistry].rows);
      ghost var i9 := issues;
      PlanCandidates(tables[Candidates].rows);
      ghost var i10 := issues;
      PlanGaps(tables[MissingCoverage].rows);
      AllAccounted(files, i6, i7, i8, i9, i10, issues);
    }

    /** The five tables. */
    method ParseAll(files: map<File, string>) returns (tables: map<File, Csv>)
      requires issues == []
      modifies this`issues
      ensures tables.Keys == {SourceRegistry, Candidates, MissingCoverage, SubscriptionLog, RulesMap}
      ensures forall file | file in tables :: tables[file] == Document(Get(files, file)) && tables[file].rows == RowsOf(files, file)
      ensures forall file :: ErrorRows(issues, file) == {}
      ensures NoErrors(issues) ==> SourceRegistry in files
      ensures NoErrors(issues) ==> forall file | file in files :: Records(files[file]).Ok? && HasHeaders(file, files[file])
    {
      hide Noted, NoErrors, Document, Records, HeaderList, RequiredHeaders;
      ghost var i0 := issues;
      CheckFiles(files);
      ghost var i1 := issues;
      var sources := ParseDocument(SourceRegistry, Get(files, SourceRegistry), HeaderList(SourceRegistry));
      ghost var i2 := issues;
      var candidates := ParseDocument(Candidates, Get(files, Candidates), HeaderList(Candidates));
      ghost var i3 := issues;
      var coverage := ParseDocument(MissingCoverage, Get(files, MissingCoverage), HeaderList(MissingCoverage));
      ghost var i4 := issues;
      var subscriptions := ParseDocument(SubscriptionLog, Get(files, SubscriptionLog), HeaderList(SubscriptionLog));
      ghost var i5 := issues;
      var rules := ParseDocument(RulesMap, Get(files, RulesMap), HeaderList(RulesMap));
      AllNoted(i0, i1, i2, i3, i4, i5, issues);
      ErrorsStay(i1, issues);
      ErrorsStay(i2, issues);
      ErrorsStay(i3, issues);
      ErrorsStay(i4, issues);
      ErrorsStay(i5, issues);
      tables := map[SourceRegistry := sources, Candidates := candidates, MissingCoverage := coverage, SubscriptionLog := subscriptions, RulesMap := rules];
      if NoErrors(issues) {
        forall file | file in files ensures Records(files[file]).Ok? && HasHeaders(file, files[file]) {
          HeaderListIs(file);
          assert Get(files, file) == Some(files[file]);
          assert file.SourceRegistry? || file.Candidates? || file.MissingCoverage? || file.SubscriptionLog? || file.RulesMap?;
        }
      }
    }

    lemma NothingRouted()
      requires routing == [] && routingBySource == map[]
      ensures RoutingIndexed()
    {
    }
  }

  lemma StartAccounts(issues: seq<Issue>, file: File, rows: seq<Row>)
    ensures Accounts(issues, issues, file, rows[..0], [])
  {
  }

  lemma ContinueAccounts(start: seq<Issue>, before: seq<Issue>, after: seq<Issue>, file: File, rows: seq<Row>, i: nat, kept: seq<Row>, more: seq<Row>, keep: bool)
    requires i < |rows| && Accounts(start, before, file, rows[..i], kept)
    requires Adds(before, after, file, rows[i].row, !keep)
    requires Numbers(rows[..i + 1]) - Numbers(more) == (Numbers(rows[..i]) - Numbers(kept)) + if keep then {} else {rows[i].row}
    ensures Accounts(start, after, file, rows[..i + 1], more)
  {
    forall f
      ensures ErrorRows(after, f) == ErrorRows(start, f) + if f == file then Numbers(rows[..i + 1]) - Numbers(more) else {}
    {
      assert ErrorRows(after, f) == ErrorRows(before, f) + if !keep && f == file then {rows[i].row} else {};
    }
  }

  function Ids(id: Row -> string, rows: seq<Row>): set<string> {
    set row <- rows :: id(row)
  }

  lemma NothingKept(complete: Row -> bool, id: Row -> string, unique: bool)
    ensures Kept([], complete, id, unique) == [] && Ids(id, []) == {}
  {
  }

  lemma KeepsById(kept: seq<Row>, row: Row, complete: Row -> bool, id: Row -> string)
    ensures Keeps(kept, row, complete, id, true) <==> complete(row) && id(row) !in Ids(id, kept)
  {
    IdsAppend(id, kept, row);
  }

  lemma IdsAppend(id: Row -> string, rows: seq<Row>, row: Row)
    ensures Ids(id, rows + [row]) == Ids(id, rows) + {id(row)}
    ensures id(row) in Ids(id, rows) <==> !(forall other <- rows :: id(other) != id(row))
  {
    assert (rows + [row])[|rows|] == row;
    assert forall r <- rows :: r in rows + [row];
  }

  lemma AddsNothing(issues: seq<Issue>, file: File, row: nat)
    ensures Adds(issues, issues, file, row, false)
  {
  }

  lemma AddsTwice(a: seq<Issue>, b: seq<Issue>, c: seq<Issue>, file: File, row: nat)
    requires Adds(a, b, file, row, false) && Adds(b, c, file, row, false)
    ensures Adds(a, c, file, row, false)
  {
  }

  lemma {:induction false} AddAllAppend(acquisitions: seq<Acquisition>, a: seq<Acquisition>, b: seq<Acquisition>)
    ensures AddAll(acquisitions, a + b) == AddAll(AddAll(acquisitions, a), b)
    decreases |a|
  {
    if a == [] {
      assert a + b == b;
    } else {
      assert (a + b)[1..] == a[1..] + b;
      AddAllAppend(Add(acquisitions, a[0]), a[1..], b);
    }
  }

  lemma AddAllNothing(acquisitions: seq<Acquisition>)
    ensures AddAll(acquisitions, []) == acquisitions
  {
  }

  lemma AddAllOne(acquisitions: seq<Acquisition>, kind: AcquisitionKind, locator: Option<string>)
    ensures AddAll(acquisitions, Watch(kind, locator))
         == if locator.Some? && locator.value != "" then Add(acquisitions, Acquisition(kind, locator.value, false)) else acquisitions
  {
    if locator.Some? {
      assert Watch(kind, locator)[1..] == [];
    }
  }

  // ---------------------------------------------------------------- the whole plan

  predicate NoErrors(issues: seq<Issue>) {
    forall issue <- issues :: issue.severity != ERROR
  }

  /** Issues were added that name no row. */
  ghost predicate Noted(before: seq<Issue>, after: seq<Issue>) {
    before <= after && forall f :: ErrorRows(after, f) == ErrorRows(before, f)
  }

  lemma NotedTwice(a: seq<Issue>, b: seq<Issue>, c: seq<Issue>)
    requires Noted(a, b) && Noted(b, c)
    ensures Noted(a, c)
  {
  }

  function Get(files: map<File, string>, file: File): Option<string> {
    if file in files then Some(files[file]) else None
  }

  function Document(content: Option<string>): Csv {
    if content.None? then Csv([], [])
    else
      match Records(content.value)
      case Ok(records) => Table(records)
      case Err(_) => Csv([], [])
  }

  /** The data rows of one of the files. */
  function RowsOf(files: map<File, string>, file: File): seq<Row> {
    Document(Get(files, file)).rows
  }

  function KeptOf(files: map<File, string>, file: File): seq<Row> {
    var rows := RowsOf(files, file);
    match file
    case SourceRegistry => KeptSources(rows)
    case Candidates => KeptCandidates(rows)
    case MissingCoverage => KeptGaps(rows)
    case SubscriptionLog => KeptSubscriptions(rows)
    case RulesMap => KeptRules(rows)
  }

  lemma DocumentsNumbered(files: map<File, string>)
    ensures forall file :: Numbered(RowsOf(files, file))
  {
  }

  lemma AllNoted(i0: seq<Issue>, i1: seq<Issue>, i2: seq<Issue>, i3: seq<Issue>, i4: seq<Issue>, i5: seq<Issue>, i6: seq<Issue>)
    requires i0 == [] && Noted(i0, i1) && Noted(i1, i2) && Noted(i2, i3) && Noted(i3, i4) && Noted(i4, i5) && Noted(i5, i6)
    ensures i1 <= i6 && i2 <= i6 && i3 <= i6 && i4 <= i6 && i5 <= i6
    ensures forall f :: ErrorRows(i6, f) == {}
  {
  }

  lemma AllAccounted(files: map<File, string>, i6: seq<Issue>, i7: seq<Issue>, i8: seq<Issue>, i9: seq<Issue>, i10: seq<Issue>, i11: seq<Issue>)
    requires forall f :: ErrorRows(i6, f) == {}
    requires Accounts(i6, i7, RulesMap, RowsOf(files, RulesMap), KeptOf(files, RulesMap))
    requires Accounts(i7, i8, SubscriptionLog, RowsOf(files, SubscriptionLog), KeptOf(files, SubscriptionLog))
    requires Accounts(i8, i9, SourceRegistry, RowsOf(files, SourceRegistry), KeptOf(files, SourceRegistry))
    requires Accounts(i9, i10, Candidates, RowsOf(files, Candidates), KeptOf(files, Candidates))
    requires Accounts(i10, i11, MissingCoverage, RowsOf(files, MissingCoverage), KeptOf(files, MissingCoverage))
    ensures i6 <= i11
    ensures forall f :: ErrorRows(i11, f) == Numbers(RowsOf(files, f)) - Numbers(KeptOf(files, f))
  {
    hide ErrorRows, KeptOf, RowsOf, Numbers;
    forall f
      ensures ErrorRows(i11, f) == Numbers(RowsOf(files, f)) - Numbers(KeptOf(files, f))
    {
      assert f.RulesMap? || f.SubscriptionLog? || f.SourceRegistry? || f.Candidates? || f.MissingCoverage?;
    }
  }

  lemma ErrorsStay(before: seq<Issue>, after: seq<Issue>)
    requires before <= after
    ensures NoErrors(after) ==> NoErrors(before)
  {
    assert forall issue <- before :: issue in after;
  }

  // ---------------------------------------------------------------- what the accounting means

  ghost predicate InOrder(rows: seq<Row>, kept: seq<Row>) {
    && (forall row <- kept :: row in rows)
    && forall i, j | 0 <= i < j < |kept| :: kept[i].row < kept[j].row
  }

  lemma KeptIsInOrder(rows: seq<Row>, complete: Row -> bool, id: Row -> string, unique: bool)
    requires Numbered(rows)
    ensures InOrder(rows, Kept(rows, complete, id, unique))
  {
    KeptInOrder(rows, complete, id, unique);
  }

  lemma KeptOfInOrder(files: map<File, string>, file: File)
    ensures InOrder(RowsOf(files, file), KeptOf(files, file))
  {
    hide InOrder, Numbered;
    var rows := RowsOf(files, file);
    DocumentsNumbered(files);
    match file {
      case SourceRegistry => KeptIsInOrder(rows, SourceComplete, SourceId, true);
      case Candidates => KeptIsInOrder(rows, CandidateComplete, CandidateId, true);
      case MissingCoverage => KeptIsInOrder(rows, GapComplete, SourceId, false);
      case SubscriptionLog => KeptIsInOrder(rows, SubscriptionComplete, SourceId, false);
      case RulesMap => KeptIsInOrder(rows, RuleComplete, SourceId, false);
    }
  }

  /** A kept row stands at one place. */
  lemma KeptOnce(rows: seq<Row>, kept: seq<Row>, k: nat)
    requires Numbered(rows) && InOrder(rows, kept) && k < |rows|
    ensures rows[k].row in Numbers(kept) ==>
              exists at :: 0 <= at < |kept| && kept[at] == rows[k] && forall i | 0 <= i < |kept| && i != at :: kept[i] != rows[k]
    ensures rows[k].row !in Numbers(kept) ==> rows[k] !in kept
  {
    if rows[k].row in Numbers(kept) {
      var r :| r in kept && r.row == rows[k].row;
      var j :| 0 <= j < |rows| && rows[j] == r;
      assert j == k;
      var at :| 0 <= at < |kept| && kept[at] == r;
    }
  }

  /** Every data row of the file has exactly one record when no error names it, and none when one does. */
  ghost predicate OneRecordEach(files: map<File, string>, issues: seq<Issue>, file: File) {
    var kept, rows := KeptOf(files, file), RowsOf(files, file);
    forall k | 0 <= k < |rows| ::
      if rows[k].row in ErrorRows(issues, file) then rows[k] !in kept
      else exists at :: 0 <= at < |kept| && kept[at] == rows[k] && forall i | 0 <= i < |kept| && i != at :: kept[i] != rows[k]
  }

  /** All rows of the file have records, and identifiers that must differ do. */
  ghost predicate AllRepresented(files: map<File, string>, file: File) {
    && KeptOf(files, file) == RowsOf(files, file)
    && (file == SourceRegistry ==> DistinctIds(SourceId, RowsOf(files, file)))
    && (file == Candidates ==> DistinctIds(CandidateId, RowsOf(files, file)))
  }

  lemma PlanMeans(files: map<File, string>, issues: seq<Issue>)
    requires forall file :: ErrorRows(issues, file) == Numbers(RowsOf(files, file)) - Numbers(KeptOf(files, file))
    ensures forall file :: OneRecordEach(files, issues, file)
    ensures NoErrors(issues) ==> forall file :: AllRepresented(files, file)
  {
    forall file ensures OneRecordEach(files, issues, file) {
      forall k | 0 <= k < |RowsOf(files, file)| {
        RowYieldsOneRecord(files, issues, file, k);
      }
      hide ErrorRows, Numbers, RowsOf, KeptOf;
    }
    if NoErrors(issues) {
      forall file ensures AllRepresented(files, file) {
        NoErrorsMeansAll(files, issues, file);
        hide ErrorRows, Numbers, RowsOf, KeptOf, DistinctIds;
      }
    }
  }

  /** A data row has exactly one record when no error names it, and none when one does. */
  lemma RowYieldsOneRecord(files: map<File, string>, issues: seq<Issue>, file: File, k: nat)
    requires k < |RowsOf(files, file)|
    requires ErrorRows(issues, file) == Numbers(RowsOf(files, file)) - Numbers(KeptOf(files, file))
    ensures var kept, row := KeptOf(files, file), RowsOf(files, file)[k];
            if row.row in ErrorRows(issues, file) then row !in kept
            else exists at :: 0 <= at < |kept| && kept[at] == row && forall i | 0 <= i < |kept| && i != at :: kept[i] != row
  {
    var rows, kept := RowsOf(files, file), KeptOf(files, file);
    KeptOfInOrder(files, file);
    DocumentsNumbered(files);
    hide RowsOf, KeptOf, InOrder, Numbered;
    KeptOnce(rows, kept, k);
    assert rows[k].row in Numbers(rows);
  }

  /** With no error at all, every row of every file is represented, in order, and the identifiers of
      sources and of candidates are distinct. */
  lemma NoErrorsMeansAll(files: map<File, string>, issues: seq<Issue>, file: File)
    requires ErrorRows(issues, file) == Numbers(RowsOf(files, file)) - Numbers(KeptOf(files, file))
    requires NoErrors(issues)
    ensures KeptOf(files, file) == RowsOf(files, file)
    ensures file == SourceRegistry ==> DistinctIds(SourceId, RowsOf(files, file))
    ensures file == Candidates ==> DistinctIds(CandidateId, RowsOf(files, file))
  {
    var rows := RowsOf(files, file);
    DocumentsNumbered(files);
    assert ErrorRows(issues, file) == {};
    match file {
      case SourceRegistry =>
        NoneRejected(rows, SourceComplete, SourceId, true);
        KeptInOrder(rows, SourceComplete, SourceId, true);
      case Candidates =>
        NoneRejected(rows, CandidateComplete, CandidateId, true);
        KeptInOrder(rows, CandidateComplete, CandidateId, true);
      case MissingCoverage => NoneRejected(rows, GapComplete, SourceId, false);
      case SubscriptionLog => NoneRejected(rows, SubscriptionComplete, SourceId, false);
      case RulesMap => NoneRejected(rows, RuleComplete, SourceId, false);
    }
  }

  predicate DistinctIds(id: Row -> string, rows: seq<Row>) {
    forall i, j | 0 <= i < j < |rows| :: id(rows[i]) != id(rows[j])
  }

  /** A source's evidence is the subsequence of the rules with its identifier: each such rule occurs
      once, in the order of the list, and nothing else does. */
  lemma {:induction false} EvidenceIsTheFilter(rules: seq<Rule>, sourceId: string) returns (from: seq<nat>)
    ensures var evidence := EvidenceFor(rules, sourceId);
            && |from| == |evidence|
            && (forall i, j | 0 <= i < j < |from| :: from[i] < from[j])
            && (forall i | 0 <= i < |from| :: from[i] < |rules| && evidence[i] == EvidenceOf(rules[from[i]]))
            && (forall k | 0 <= k < |rules| :: rules[k].sourceId == sourceId <==> k in from)
    decreases |rules|
  {
    if rules == [] {
      from := [];
    } else {
      from := EvidenceIsTheFilter(rules[..|rules| - 1], sourceId);
      if rules[|rules| - 1].sourceId == sourceId {
        from := from + [|rules| - 1];
      }
    }
  }
}

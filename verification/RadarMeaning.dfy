/** What a record of the intake plan says of its row. */
module RadarMeaning {
  import opened Common
  import opened RadarCsv
  import opened RadarIntake
  import opened RadarPlanner

  predicate Says(text: Text, row: Row, field: string, words: set<string>) {
    text.lower(Column(row, field)) in words
  }

  const YES: set<string> := {"true", "yes", "1", "y"}
  const NO: set<string> := {"false", "no", "0", "n"}

  lemma BooleanMeans(text: Text, row: Row, field: string)
    ensures Boolean(text, row, field) == Some(true) <==> Says(text, row, field, YES)
    ensures Boolean(text, row, field) == Some(false) <==> Says(text, row, field, NO)
  {
    var value := text.lower(Column(row, field));
    var yes, no := ["true", "yes", "1", "y"], ["false", "no", "0", "n"];
    assert yes[0] == "true" && yes[1] == "yes" && yes[2] == "1" && yes[3] == "y";
    assert no[0] == "false" && no[1] == "no" && no[2] == "0" && no[3] == "n";
    assert forall w <- no :: w !in yes by {
      assert |"true"| == 4 && |"yes"| == 3 && |"1"| == 1 && |"y"| == 1 && |"false"| == 5 && |"no"| == 2;
      assert "1"[0] == '1' && "y"[0] == 'y' && "0"[0] == '0' && "n"[0] == 'n';
    }
  }

  /** A score is the number the cell spells, from zero to one hundred, both included. */
  lemma ScoreMeans(text: Text, row: Row, field: string)
    ensures var number := if Column(row, field) == "" then None else text.number(Column(row, field));
            match Score(text, row, field)
            case Some(score) => number == Some(score) && 0.0 <= score && score <= 100.0
            case None => number.None? || number.value < 0.0 || 100.0 < number.value
  {
    hide Column;
  }

  ghost predicate Has(acquisitions: seq<Acquisition>, kind: AcquisitionKind, locator: string) {
    exists a <- acquisitions :: a.kind == kind && a.locator == locator
  }

  /** The mail contact of a row: its newsletter address, its sender or its list, whichever comes first. */
  function Contact(row: Row): string {
    if Column(row, "newsletter_url") != "" then Column(row, "newsletter_url")
    else if Column(row, "sender_email") != "" then Column(row, "sender_email")
    else Column(row, "list_id")
  }

  const MAILABLE: set<string> := {"available", "subscribed", "confirmed", "already_subscribed"}
  const STOPPED: set<string> := {"manual_required", "rejected", "failed", "inactive"}

  /** The identity of a planned source, and what is to be done with it: a stopped subscription is blocked, an unchecked
      one, one of the lowest priority and one without anything to acquire stays a candidate, any other goes to review. */
  lemma SourceMeans(text: Text, rules: seq<Rule>, row: Row)
    requires SourceComplete(row)
    ensures var s := SourceOf(text, rules, row);
            && s.id == Column(row, "source_id") != "" && s.name == Column(row, "name") != "" && s.organization == Column(row, "organization") != ""
            && s.authorityType == Column(row, "authority_type") && s.authorityType in AUTHORITY_TYPES && s.sourceType == Column(row, "source_type") && s.sourceType in SOURCE_TYPES
            && s.priority == Column(row, "priority") && s.priority in PRIORITIES && s.status == Column(row, "subscription_status") && s.status in SUBSCRIPTION_STATUSES
            && (s.disposition == BLOCKED <==> s.status in STOPPED)
            && (s.disposition == REVIEW <==> s.status !in STOPPED && s.status != "not_checked" && s.priority != "C" && s.acquisitions != [])
            && (s.confirmed <==> Says(text, row, "confirmed", YES) || (!Says(text, row, "confirmed", NO) && s.status == "confirmed"))
            && s.routingEvidence == EvidenceFor(rules, s.id)
  {
    BooleanMeans(text, row, "confirmed");
    StoppedAre(Column(row, "subscription_status"));
    hide AUTHORITY_TYPES, SOURCE_TYPES, PRIORITIES, SUBSCRIPTION_STATUSES, BLOCKED_STATUSES, STOPPED, Says, Boolean, Proposals, AddAll, Scores;
  }

  lemma StoppedAre(status: string)
    ensures status in BLOCKED_STATUSES <==> status in STOPPED
    ensures status in EMAIL_STATUSES <==> status in MAILABLE
  {
    assert BLOCKED_STATUSES[0] == "manual_required" && BLOCKED_STATUSES[1] == "rejected" && BLOCKED_STATUSES[2] == "failed" && BLOCKED_STATUSES[3] == "inactive";
    assert EMAIL_STATUSES[0] == "available" && EMAIL_STATUSES[1] == "subscribed" && EMAIL_STATUSES[2] == "confirmed" && EMAIL_STATUSES[3] == "already_subscribed";
  }

  /** What is to be acquired from a planned source: mail exactly where the subscription allows it and there is a contact,
      at that contact and verified if confirmed; the feed, the site map and the news page the row names. */
  lemma AcquisitionsMean(text: Text, rules: seq<Rule>, row: Row)
    ensures var s := SourceOf(text, rules, row);
            && (forall locator :: Has(s.acquisitions, EMAIL, locator) <==> s.status in MAILABLE && locator == Contact(row) && locator != "")
            && (forall a <- s.acquisitions | a.kind == EMAIL :: a.verified == s.confirmed)
            && (forall locator :: Has(s.acquisitions, RSS, locator) <==> locator == Column(row, "rss_url") && locator != "")
            && (Column(row, "sitemap_url") != "" ==> Has(s.acquisitions, SITEMAP, Column(row, "sitemap_url")))
            && (Column(row, "news_url") != "" ==> Has(s.acquisitions, HTML_WATCH, Column(row, "news_url")))
            && (forall a <- s.acquisitions | a.kind == API || a.kind == PDF_WATCH :: a.kind in Inferred(text, row, s.status))
            && (forall kind <- Inferred(text, row, s.status) ::
                  var locator := LocatorFor(text, row, kind);
                  locator.Some? && locator.value != "" ==> Has(s.acquisitions, kind, locator.value))
  {
    var s := SourceOf(text, rules, row);
    var proposals := Proposals(text, row, s.status, s.confirmed);
    AcquisitionsExact(text, row, s.status, s.confirmed);
    ProposalsMean(text, row, s.status, s.confirmed);
    hide AddAll, Proposals, MAILABLE, Contact, Inferred, Scores, EvidenceFor, Confirmed;
    forall kind, locator | locator != "" ensures Has(s.acquisitions, kind, locator) <==> Has(proposals, kind, locator) {
      if p :| p in proposals && p.kind == kind && p.locator == locator {
        assert exists a <- s.acquisitions :: SameTarget(a, p);
      }
    }
    forall kind ensures !Has(s.acquisitions, kind, "") {
    }
  }

  /** The proposals behind them. */
  lemma ProposalsMean(text: Text, row: Row, status: string, confirmed: bool)
    ensures var all := Proposals(text, row, status, confirmed);
            && (forall locator :: Has(all, EMAIL, locator) <==> status in MAILABLE && locator == Contact(row) && locator != "")
            && (forall a <- all | a.kind == EMAIL :: a.verified == confirmed)
            && (forall locator :: Has(all, RSS, locator) <==> locator == Column(row, "rss_url") && locator != "")
            && (Column(row, "sitemap_url") != "" ==> Has(all, SITEMAP, Column(row, "sitemap_url")))
            && (Column(row, "news_url") != "" ==> Has(all, HTML_WATCH, Column(row, "news_url")))
            && (forall a <- all | a.kind == API || a.kind == PDF_WATCH :: a.kind in Inferred(text, row, status))
            && (forall kind <- Inferred(text, row, status) | LocatorFor(text, row, kind).Some? :: Has(all, kind, LocatorFor(text, row, kind).value))
  {
    var direct, kinds := Direct(row, status, confirmed), Inferred(text, row, status);
    var inferred := InferredProposals(text, row, kinds);
    DirectMeans(row, status, confirmed);
    InferredMean(text, row, kinds);
    InferredKinds(text, row, status);
    hide Direct, Inferred, InferredProposals, LocatorFor, MAILABLE, Contact;
    HasEither(direct, inferred);
    var all := direct + inferred;
    assert forall a <- all :: a in direct || a in inferred;
    assert forall a <- direct :: a in all;
    forall kind, locator | kind == EMAIL || kind == RSS ensures Has(all, kind, locator) <==> Has(direct, kind, locator) {
    }
  }

  lemma HasEither(a: seq<Acquisition>, b: seq<Acquisition>)
    ensures forall kind, locator :: Has(a + b, kind, locator) <==> Has(a, kind, locator) || Has(b, kind, locator)
    ensures forall x :: x in a + b <==> x in a || x in b
  {
    assert forall x :: x in a + b <==> x in a || x in b;
  }

  lemma HasWatched(kind: AcquisitionKind, row: Row, field: string)
    ensures var all := Watch(kind, Optional(row, field));
            && (forall k, locator :: Has(all, k, locator) <==> k == kind && locator == Column(row, field) && locator != "")
            && (forall a <- all :: a == Acquisition(kind, Column(row, field), false) && a.locator != "")
  {
    hide Column;
    var all := Watch(kind, Optional(row, field));
    assert all != [] ==> all[0] in all && all == [Acquisition(kind, Column(row, field), false)];
  }

  function Mail(row: Row, status: string, confirmed: bool): seq<Acquisition> {
    if status in MAILABLE && Contact(row) != "" then [Acquisition(EMAIL, Contact(row), confirmed)] else []
  }

  lemma DirectParts(row: Row, status: string, confirmed: bool)
    ensures Direct(row, status, confirmed)
         == Mail(row, status, confirmed) + Watch(RSS, Optional(row, "rss_url"))
            + Watch(SITEMAP, Optional(row, "sitemap_url")) + Watch(HTML_WATCH, Optional(row, "news_url"))
  {
    StoppedAre(status);
    hide Column, EMAIL_STATUSES, MAILABLE, Watch;
  }

  lemma HasMail(row: Row, status: string, confirmed: bool)
    ensures var all := Mail(row, status, confirmed);
            && (forall k, locator :: Has(all, k, locator) <==> k == EMAIL && status in MAILABLE && locator == Contact(row) && locator != "")
            && (forall a <- all :: a.kind == EMAIL && a.verified == confirmed && a.locator != "")
  {
    hide Contact, MAILABLE;
    var all := Mail(row, status, confirmed);
    assert all != [] ==> all[0] in all && all == [Acquisition(EMAIL, Contact(row), confirmed)];
  }

  lemma DirectMeans(row: Row, status: string, confirmed: bool)
    ensures var all := Direct(row, status, confirmed);
            && (forall a <- all :: a.locator != "" && a.kind in {EMAIL, RSS, SITEMAP, HTML_WATCH})
            && (forall locator :: Has(all, EMAIL, locator) <==> status in MAILABLE && locator == Contact(row) && locator != "")
            && (forall a <- all | a.kind == EMAIL :: a.verified == confirmed)
            && (forall locator :: Has(all, RSS, locator) <==> locator == Column(row, "rss_url") && locator != "")
            && (Column(row, "sitemap_url") != "" ==> Has(all, SITEMAP, Column(row, "sitemap_url")))
            && (Column(row, "news_url") != "" ==> Has(all, HTML_WATCH, Column(row, "news_url")))
  {
    var mail := Mail(row, status, confirmed);
    var rss, sitemap, news := Watch(RSS, Optional(row, "rss_url")), Watch(SITEMAP, Optional(row, "sitemap_url")), Watch(HTML_WATCH, Optional(row, "news_url"));
    DirectParts(row, status, confirmed);
    HasMail(row, status, confirmed);
    HasWatched(RSS, row, "rss_url");
    HasWatched(SITEMAP, row, "sitemap_url");
    HasWatched(HTML_WATCH, row, "news_url");
    hide Direct, Watch, Mail, Has, Contact, Column, MAILABLE, Optional;
    HasEither(mail, rss);
    HasEither(mail + rss, sitemap);
    HasEither(mail + rss + sitemap, news);
  }

  lemma {:induction false} InferredMean(text: Text, row: Row, kinds: seq<AcquisitionKind>)
    ensures forall a <- InferredProposals(text, row, kinds) :: a.kind in kinds && Some(a.locator) == LocatorFor(text, row, a.kind)
    ensures forall kind <- kinds | LocatorFor(text, row, kind).Some? :: Has(InferredProposals(text, row, kinds), kind, LocatorFor(text, row, kind).value)
    decreases |kinds|
  {
    hide LocatorFor;
    if kinds != [] {
      InferredMean(text, row, kinds[1..]);
      HasEither(Watch(kinds[0], LocatorFor(text, row, kinds[0])), InferredProposals(text, row, kinds[1..]));
      var first := Watch(kinds[0], LocatorFor(text, row, kinds[0]));
      assert first != [] ==> first[0] in first;
    }
  }

  /** What a row's status and remark lead to beyond what it names. */
  lemma InferredKinds(text: Text, row: Row, status: string)
    ensures var kinds := Inferred(text, row, status);
            var remark := Remark(text, row);
            && (API in kinds <==> status == "api_available" || text.contains(remark, "api"))
            && (HTML_WATCH in kinds <==> status == "html_watch" || text.contains(remark, "html"))
            && (SITEMAP in kinds <==> status == "sitemap_watch" || text.contains(remark, "sitemap"))
            && (PDF_WATCH in kinds <==> text.contains(remark, "pdf"))
            && EMAIL !in kinds && RSS !in kinds
  {
    var remark := Remark(text, row);
    var api, html := status == "api_available" || text.contains(remark, "api"), status == "html_watch" || text.contains(remark, "html");
    var sitemap, pdf := status == "sitemap_watch" || text.contains(remark, "sitemap"), text.contains(remark, "pdf");
    InferredParts(text, row, status);
    hide Inferred, Remark, Column, One;
    InFour(One(api, API), One(html, HTML_WATCH), One(sitemap, SITEMAP), One(pdf, PDF_WATCH));
    OneHolds(api, API);
    OneHolds(html, HTML_WATCH);
    OneHolds(sitemap, SITEMAP);
    OneHolds(pdf, PDF_WATCH);
  }

  function Remark(text: Text, row: Row): string {
    if Column(row, "other_acquisition") == "" then "" else text.lower(Column(row, "other_acquisition"))
  }

  function One(wanted: bool, kind: AcquisitionKind): seq<AcquisitionKind> {
    if wanted then [kind] else []
  }

  lemma OneHolds(wanted: bool, kind: AcquisitionKind)
    ensures forall k :: k in One(wanted, kind) <==> wanted && k == kind
  {
    assert wanted ==> One(wanted, kind)[0] == kind;
  }

  lemma InferredParts(text: Text, row: Row, status: string)
    ensures var remark := Remark(text, row);
            Inferred(text, row, status)
            == One(status == "api_available" || text.contains(remark, "api"), API)
               + One(status == "html_watch" || text.contains(remark, "html"), HTML_WATCH)
               + One(status == "sitemap_watch" || text.contains(remark, "sitemap"), SITEMAP)
               + One(text.contains(remark, "pdf"), PDF_WATCH)
  {
    hide Column;
  }

  lemma InFour<T>(a: seq<T>, b: seq<T>, c: seq<T>, d: seq<T>)
    ensures forall x :: x in a + b + c + d <==> x in a || x in b || x in c || x in d
  {
    assert forall x :: x in a + b + c + d <==> x in a + b + c || x in d;
    assert forall x :: x in a + b + c <==> x in a + b || x in c;
  }

  // ---------------------------------------------------------------- the other records

  /** A rule counts as verified or created only where its row says yes. */
  lemma RuleMeans(text: Text, row: Row)
    requires RuleComplete(row)
    ensures var r := RuleOf(text, row);
            && r.sourceId == Column(row, "source_id") != "" && r.matchValue == Column(row, "match_value") != ""
            && r.matchType == Column(row, "match_type") && r.matchType in MATCH_TYPES
            && (r.verified <==> Says(text, row, "verified_from_real_email", YES)) && (r.created <==> Says(text, row, "created", YES))
            && (r.ruleId.Some? ==> r.ruleId.value == Column(row, "rule_id") != "") && (r.ruleId.None? ==> Column(row, "rule_id") == "")
            && (r.gmailLabel.Some? ==> r.gmailLabel.value == Column(row, "gmail_label") != "") && (r.gmailLabel.None? ==> Column(row, "gmail_label") == "")
  {
    BooleanMeans(text, row, "verified_from_real_email");
    BooleanMeans(text, row, "created");
    hide MATCH_TYPES, Says, Boolean, Column;
  }

  /** A rejected or duplicate candidate is blocked, a promoted one goes to review, any other stays a candidate. */
  lemma CandidateMeans(row: Row)
    requires CandidateComplete(row)
    ensures var c := CandidateOf(row);
            && c.id == Column(row, "candidate_id") != "" && c.name == Column(row, "name") != "" && c.url == Column(row, "url") != ""
            && c.status == Column(row, "status") && c.status in CANDIDATE_STATUSES
            && (c.disposition == BLOCKED <==> c.status == "reject" || c.status == "duplicate")
            && (c.disposition == REVIEW <==> c.status == "promote")
            && (c.estimatedPriority == if Column(row, "estimated_priority") in {"S", "A", "B", "C"} then Some(Column(row, "estimated_priority")) else None)
  {
    var priority := Column(row, "estimated_priority");
    assert PRIORITIES[0] == "S" && PRIORITIES[1] == "A" && PRIORITIES[2] == "B" && PRIORITIES[3] == "C";
    assert priority in PRIORITIES <==> priority in {"S", "A", "B", "C"};
    assert "promote" != "reject" && "promote" != "duplicate" by {
      assert |"promote"| == 7 && |"reject"| == 6 && |"duplicate"| == 9;
    }
    hide CANDIDATE_STATUSES, PRIORITIES, Column;
  }

  /** A log entry says of each confirmation step what its row says, and nothing where the row says neither yes nor no. */
  lemma SubscriptionMeans(text: Text, row: Row)
    requires SubscriptionComplete(row)
    ensures var s := SubscriptionOf(text, row);
            && s.sourceId == Column(row, "source_id") != ""
            && s.action == (if Column(row, "action") == "" then None else Some(Column(row, "action")))
            && (forall b: bool :: s.confirmationRequired == Some(b) <==> Says(text, row, "confirmation_required", if b then YES else NO))
            && (forall b: bool :: s.confirmationReceived == Some(b) <==> Says(text, row, "confirmation_received", if b then YES else NO))
            && (forall b: bool :: s.confirmationCompleted == Some(b) <==> Says(text, row, "confirmation_completed", if b then YES else NO))
            && (forall b: bool :: s.manualRequired == Some(b) <==> Says(text, row, "manual_required", if b then YES else NO))
  {
    BooleanMeans(text, row, "confirmation_required");
    BooleanMeans(text, row, "confirmation_received");
    BooleanMeans(text, row, "confirmation_completed");
    BooleanMeans(text, row, "manual_required");
    hide Says, Boolean, Column, YES, NO;
  }

  lemma GapMeans(row: Row)
    requires GapComplete(row)
    ensures var g := GapOf(row);
            && g.jurisdiction == Column(row, "jurisdiction") != "" && g.sourceCategory == Column(row, "source_category") != ""
            && g.missing == Column(row, "missing") != ""
  {
    hide Column;
  }
}

/** The dialogue engine's tables and its routing decision: which tier of
    `generateResponse` answers a message, and the quick replies of
    `getContextOptions`. Everything here is a pure function of the current
    context and the message; the rotation state lives in module Rotation. */
module Dialogue {
  import opened Strings

  datatype Option<T> = None | Some(value: T)

  /** The global `currentContext`: null, one of the five topic strings, or
      any other string (one read back from storage that no branch knows). */
  datatype Context = Null | Fees | Administration | Hostels | Results | General | Unrecognised
  {
    /** One of the five strings that `generateResponse` has a branch for. */
    predicate IsTopic()
    {
      !Null? && !Unrecognised?
    }
  }

  /** The `subContext` strings of the replies. Two topics share a string:
      'facilities' (hostels and general); HostelFees is the hostels string
      'fees'. */
  datatype SubContext =
    | Payment | Deadlines | Balance | Sponsorship
    | Registrar | Dean | Exam | Finance
    | Application | HostelFees | Rules | Facilities
    | Access | Transcript | Remarking | Supplementary
    | Library | Contacts | Events

  /** The canned texts, by where they come from rather than by their wording. */
  datatype Text =
    | MenuReturn                                  // "Returning to main menu. ..."
    | YoureWelcome                                // "You're welcome! ..."
    | Variant(topic: Context, sub: SubContext, index: nat)  // responses[index] of a sub-topic
    | TopicDefault(topic: Context)                // a topic's text when no sub-topic matches
    | Overview(topic: Context)                    // a topic's introduction on detection
    | Prompt                                      // "I'm here to help ... choose an option below:"

  /** The object `generateResponse` returns; subContext is absent (None)
      unless a sub-topic answered. */
  datatype Reply = Reply(text: Text, context: Context, subContext: Option<SubContext>)

  // ---------------------------------------------------------------------------
  // Keyword tables

  /** One `if` of the engine: it fires when the message equals `exact`
      exactly, or when its lower-cased form contains one of `keywords`. */
  datatype Rule<T> = Rule(target: T, exact: Option<string>, keywords: seq<string>)

  predicate Fires<T>(rule: Rule<T>, message: string, lower: string)
  {
    (rule.exact.Some? && message == rule.exact.value) || AnyIn(lower, rule.keywords)
  }

  /** The index of the first rule that fires, or |rules| when none does:
      first match wins. */
  function FirstFiring<T>(rules: seq<Rule<T>>, message: string, lower: string): (n: nat)
    ensures n <= |rules|
    ensures forall j :: 0 <= j < n ==> !Fires(rules[j], message, lower)
    ensures n < |rules| ==> Fires(rules[n], message, lower)
    decreases |rules|
  {
    if rules == [] then 0
    else if Fires(rules[0], message, lower) then 0
    else 1 + FirstFiring(rules[1..], message, lower)
  }

  /** Return-to-menu keywords, tested in every context first. */
  const ReturnKeywords: seq<string> := ["back", "main menu", "start over", "home"]

  /** Gratitude keywords, tested second. */
  const ThanksKeywords: seq<string> := ["thank", "thanks"]

  /** The sub-topic `if`s of each topic, in the order they are tested:
      exactly the five topics have them, four each, matched on keywords
      alone. */
  function SubTopics(c: Context): (r: seq<Rule<SubContext>>)
    ensures c.IsTopic() <==> |r| == 4
    ensures forall j :: 0 <= j < |r| ==> r[j].exact.None? && r[j].keywords != []
    ensures forall j, i :: 0 <= j < |r| && 0 <= i < |r[j].keywords| ==> r[j].keywords[i] != []
  {
    match c
    case Fees => [
      Rule(Payment, None, ["payment", "method", "mpesa", "bank"]),
      Rule(Deadlines, None, ["deadline", "due date", "late"]),
      Rule(Balance, None, ["balance", "outstanding", "statement"]),
      Rule(Sponsorship, None, ["sponsor", "helb", "loan"])]
    case Administration => [
      Rule(Registrar, None, ["registrar", "academic record", "transcript"]),
      Rule(Dean, None, ["dean", "welfare", "counsel"]),
      Rule(Exam, None, ["exam", "examination", "card"]),
      Rule(Finance, None, ["finance", "bursar", "receipt"])]
    case Hostels => [
      Rule(Application, None, ["application", "apply", "book"]),
      Rule(HostelFees, None, ["fee", "cost", "charge"]),
      Rule(Rules, None, ["rule", "regulation", "policy"]),
      Rule(Facilities, None, ["facilit", "amenit", "room"])]
    case Results => [
      Rule(Access, None, ["access", "check", "view"]),
      Rule(Transcript, None, ["transcript", "certificate", "academic"]),
      Rule(Remarking, None, ["remark", "recheck", "appeal"]),
      Rule(Supplementary, None, ["supplement", "retake", "repeat"])]
    case General => [
      Rule(Library, None, ["library", "book", "research"]),
      Rule(Contacts, None, ["contact", "phone", "email"]),
      Rule(Events, None, ["event", "activity", "fair"]),
      Rule(Facilities, None, ["facilit", "campus", "lab"])]
    case _ => []
  }

  /** Top-level topic detection, in the order it is tested. Each rule also
      fires on the exact text of its quick reply. */
  const TopLevel: seq<Rule<Context>> := [
    Rule(Fees, Some("Fees Information"), ["fee", "payment", "sponsor"]),
    Rule(Administration, Some("Administration"), ["admin", "registrar", "dean"]),
    Rule(Hostels, Some("Hostels"), ["hostel", "accommodation", "dorm"]),
    Rule(Results, Some("Results"), ["result", "transcript", "exam"]),
    Rule(General, Some("General Information"), ["general", "info", "campus"])]

  /** The number of texts in every sub-topic's `responses` array. */
  const VariantCount: nat := 3

  function Variants(c: Context, s: SubContext): (r: seq<Text>)
    ensures |r| == VariantCount
    ensures forall i :: 0 <= i < |r| ==> r[i] == Variant(c, s, i)
  {
    [Variant(c, s, 0), Variant(c, s, 1), Variant(c, s, 2)]
  }

  // ---------------------------------------------------------------------------
  // Routing

  /** Which branch of `generateResponse` answers. */
  datatype Route =
    | ToMainMenu
    | Thanks
    | SubTopic(sub: SubContext)
    | StayDefault
    | Detected(topic: Context)
    | Unmatched

  /** The branch `generateResponse(message)` takes in context ctx. Sub-topic
      answers and topic defaults happen only inside a topic, and a sub-topic
      answer is one of that topic's own; topic detection happens only
      outside one. */
  function RouteOf(ctx: Context, message: string): (r: Route)
    ensures r.SubTopic? || r.StayDefault? ==> ctx.IsTopic()
    ensures r.SubTopic? ==> IsSubTopicOf(r.sub, ctx)
    ensures r.Detected? ==> !ctx.IsTopic() && r.topic.IsTopic()
  {
    var lower := Lower(message);
    if AnyIn(lower, ReturnKeywords) then ToMainMenu
    else if AnyIn(lower, ThanksKeywords) then Thanks
    else if ctx.IsTopic() then
      var rules := SubTopics(ctx);
      var n := FirstFiring(rules, message, lower);
      if n < |rules| then SubTopic(rules[n].target) else StayDefault
    else
      var n := FirstFiring(TopLevel, message, lower);
      if n < |TopLevel| then Detected(TopLevel[n].target) else Unmatched
  }

  /** The reply of a branch, with `variant` the index the rotation served.
      Only a sub-topic answer carries a sub-context and a variant text; the
      reply's context is null after a menu return and after the prompt, the
      new topic after a detection, and the current context otherwise. */
  function ReplyFor(ctx: Context, route: Route, variant: nat): (r: Reply)
    ensures r.subContext.Some? <==> route.SubTopic?
    ensures r.text.Variant? <==> route.SubTopic?
    ensures r.context == (if route.ToMainMenu? || route.Unmatched? then Null
                          else if route.Detected? then route.topic
                          else ctx)
  {
    match route
    case ToMainMenu => Reply(MenuReturn, Null, None)
    case Thanks => Reply(YoureWelcome, ctx, None)
    case SubTopic(s) => Reply(Variant(ctx, s, variant), ctx, Some(s))
    case StayDefault => Reply(TopicDefault(ctx), ctx, None)
    case Detected(c) => Reply(Overview(c), c, None)
    case Unmatched => Reply(Prompt, Null, None)
  }

  /** Tier 1: a return-to-menu keyword, in any case, wins in every context. */
  lemma ReturnToMenuFirst(ctx: Context, message: string)
    ensures RouteOf(ctx, message) == ToMainMenu <==> AnyIn(Lower(message), ReturnKeywords)
    ensures AnyIn(Lower(message), ReturnKeywords) ==> ReplyFor(ctx, RouteOf(ctx, message), 0) == Reply(MenuReturn, Null, None)
  {
  }

  /** Tier 2: gratitude without a return-to-menu keyword keeps the context
      and sets no sub-context. */
  lemma ThanksKeepsContext(ctx: Context, message: string, variant: nat)
    ensures RouteOf(ctx, message) == Thanks <==>
              !AnyIn(Lower(message), ReturnKeywords) && AnyIn(Lower(message), ThanksKeywords)
    ensures RouteOf(ctx, message) == Thanks ==>
              ReplyFor(ctx, Thanks, variant) == Reply(YoureWelcome, ctx, None)
  {
  }

  /** The keyword 'thanks' adds nothing to 'thank': tier 2 fires exactly
      when the message contains 'thank'. */
  lemma ThanksKeywordRedundant(lower: string)
    ensures AnyIn(lower, ThanksKeywords) <==> Contains(lower, "thank")
  {
    assert OccursAt("thanks", "thank", 0);
    ContainsPart(lower, "thanks", "thank", 0);
  }

  /** Tier 3: in a topic, no top-level switching happens: the reply is a
      return to the menu, thanks, a sub-topic or the topic's default, and
      except for the return to the menu its context is the current one. */
  lemma TopicIsSticky(ctx: Context, message: string, variant: nat)
    requires ctx.IsTopic()
    ensures var r := RouteOf(ctx, message);
            r.ToMainMenu? || r.Thanks? || r.SubTopic? || r.StayDefault?
    ensures var r := RouteOf(ctx, message);
            !r.ToMainMenu? ==> ReplyFor(ctx, r, variant).context == ctx
  {
  }

  /** The sub-topic that answers is the first of the topic whose keywords
      the message contains: every earlier one misses. */
  lemma SubTopicIsFirstMatch(ctx: Context, message: string)
    requires ctx.IsTopic()
    ensures var r := RouteOf(ctx, message);
            var lower := Lower(message);
            r.SubTopic? ==>
              exists n :: 0 <= n < |SubTopics(ctx)| && SubTopics(ctx)[n].target == r.sub &&
                AnyIn(lower, SubTopics(ctx)[n].keywords) &&
                forall j :: 0 <= j < n ==> !AnyIn(lower, SubTopics(ctx)[j].keywords)
  {
    var r := RouteOf(ctx, message);
    if r.SubTopic? {
      FirstKeywordMatch(SubTopics(ctx), message, Lower(message), r.sub);
    }
  }

  /** The rule FirstFiring picks among keyword-only rules is a witness for
      SubTopicIsFirstMatch. */
  lemma FirstKeywordMatch<T>(rules: seq<Rule<T>>, message: string, lower: string, target: T)
    requires forall j :: 0 <= j < |rules| ==> rules[j].exact.None?
    requires FirstFiring(rules, message, lower) < |rules|
    requires rules[FirstFiring(rules, message, lower)].target == target
    ensures exists n :: 0 <= n < |rules| && rules[n].target == target &&
              AnyIn(lower, rules[n].keywords) &&
              forall j :: 0 <= j < n ==> !AnyIn(lower, rules[j].keywords)
  {
    var n := FirstFiring(rules, message, lower);
    assert AnyIn(lower, rules[n].keywords);
  }

  /** SubTopicIsFirstMatch for a sub-topic named by its position n, when no
      other sub-topic of the topic has the same target. */
  lemma SubTopicAnswerAt(ctx: Context, message: string, n: nat)
    requires ctx.IsTopic() && n < |SubTopics(ctx)|
    requires forall j :: 0 <= j < |SubTopics(ctx)| && j != n ==> SubTopics(ctx)[j].target != SubTopics(ctx)[n].target
    requires RouteOf(ctx, message) == SubTopic(SubTopics(ctx)[n].target)
    ensures AnyIn(Lower(message), SubTopics(ctx)[n].keywords)
    ensures forall j :: 0 <= j < n ==> !AnyIn(Lower(message), SubTopics(ctx)[j].keywords)
  {
    var m := FirstFiring(SubTopics(ctx), message, Lower(message));
    assert m == n;
  }

  /** A topic's default text answers exactly when no sub-topic of the topic
      matches (and tiers 1 and 2 do not); it sets no sub-context. */
  lemma DefaultWhenNoSubTopic(ctx: Context, message: string, variant: nat)
    requires ctx.IsTopic()
    ensures var r := RouteOf(ctx, message);
            r.StayDefault? <==>
              !r.ToMainMenu? && !r.Thanks? &&
              forall j :: 0 <= j < |SubTopics(ctx)| ==> !AnyIn(Lower(message), SubTopics(ctx)[j].keywords)
    ensures RouteOf(ctx, message).StayDefault? ==>
              ReplyFor(ctx, StayDefault, variant) == Reply(TopicDefault(ctx), ctx, None)
  {
  }

  /** Tiers 4 and 5: only with no topic is the message matched against the
      top-level table, first rule first; a miss gives the prompt and context
      null. */
  lemma DetectionOnlyWithoutTopic(ctx: Context, message: string, variant: nat)
    requires !ctx.IsTopic()
    ensures var r := RouteOf(ctx, message);
            !r.SubTopic? && !r.StayDefault?
    ensures var r := RouteOf(ctx, message);
            r.Detected? ==>
              r.topic.IsTopic() && ReplyFor(ctx, r, variant) == Reply(Overview(r.topic), r.topic, None)
    ensures var r := RouteOf(ctx, message);
            var lower := Lower(message);
            r.Detected? ==>
              exists n :: 0 <= n < |TopLevel| && TopLevel[n].target == r.topic &&
                Fires(TopLevel[n], message, lower) &&
                forall j :: 0 <= j < n ==> !Fires(TopLevel[j], message, lower)
    ensures var r := RouteOf(ctx, message);
            r.Unmatched? ==> ReplyFor(ctx, r, variant) == Reply(Prompt, Null, None)
  {
    var r := RouteOf(ctx, message);
    var lower := Lower(message);
    if r.Detected? {
      var n := FirstFiring(TopLevel, message, lower);
      assert TopLevel[n].target == r.topic;
    }
  }

  /** Where the conversation can go in one reply: it stays, returns to null,
      or (only from no topic) enters a topic. */
  lemma ReplyContext(ctx: Context, message: string, variant: nat)
    ensures var c := ReplyFor(ctx, RouteOf(ctx, message), variant).context;
            c == ctx || c == Null || (!ctx.IsTopic() && c.IsTopic())
  {
    if !ctx.IsTopic() {
      DetectionOnlyWithoutTopic(ctx, message, variant);
    }
  }

  /** First match wins, read backwards: the rule that fires with no earlier
      rule firing is the one FirstFiring finds. */
  lemma FirstFiringIs<T>(rules: seq<Rule<T>>, message: string, lower: string, n: nat)
    requires n < |rules| && Fires(rules[n], message, lower)
    requires forall j :: 0 <= j < n ==> !Fires(rules[j], message, lower)
    ensures FirstFiring(rules, message, lower) == n
  {
  }

  /** Tier 3 read backwards: in a topic, a message with no return-to-menu
      and no gratitude keyword is answered by sub-topic n when n's keywords
      are the first of the topic's that it contains. */
  lemma SubTopicChosen(ctx: Context, message: string, n: nat)
    requires ctx.IsTopic()
    requires !AnyIn(Lower(message), ReturnKeywords) && !AnyIn(Lower(message), ThanksKeywords)
    requires n < |SubTopics(ctx)| && AnyIn(Lower(message), SubTopics(ctx)[n].keywords)
    requires forall j :: 0 <= j < n ==> !AnyIn(Lower(message), SubTopics(ctx)[j].keywords)
    ensures RouteOf(ctx, message) == SubTopic(SubTopics(ctx)[n].target)
  {
    FirstFiringIs(SubTopics(ctx), message, Lower(message), n);
  }

  /** Tier 4 read backwards: with no topic, a message with no return-to-menu
      and no gratitude keyword selects the topic of the first top-level rule
      that fires. */
  lemma TopicDetected(ctx: Context, message: string, n: nat)
    requires !ctx.IsTopic()
    requires !AnyIn(Lower(message), ReturnKeywords) && !AnyIn(Lower(message), ThanksKeywords)
    requires n < |TopLevel| && Fires(TopLevel[n], message, Lower(message))
    requires forall j :: 0 <= j < n ==> !Fires(TopLevel[j], message, Lower(message))
    ensures RouteOf(ctx, message) == Detected(TopLevel[n].target)
  {
    FirstFiringIs(TopLevel, message, Lower(message), n);
  }

  // ---------------------------------------------------------------------------
  // Case

  /** The exact-text test of each top-level rule adds nothing: the
      lower-cased label already contains one of the rule's keywords. */
  lemma ExactLabelsRedundant()
    ensures forall j :: 0 <= j < |TopLevel| ==>
              TopLevel[j].exact.Some? && AnyIn(Lower(TopLevel[j].exact.value), TopLevel[j].keywords)
  {
    assert Lower("Fees Information")[0..3] == "fee";
    assert OccursAt(Lower("Fees Information"), "fee", 0);
    assert Lower("Administration")[0..5] == "admin";
    assert OccursAt(Lower("Administration"), "admin", 0);
    assert Lower("Hostels")[0..6] == "hostel";
    assert OccursAt(Lower("Hostels"), "hostel", 0);
    assert Lower("Results")[0..6] == "result";
    assert OccursAt(Lower("Results"), "result", 0);
    assert Lower("General Information")[0..7] == "general";
    assert OccursAt(Lower("General Information"), "general", 0);
  }

  /** Hence a top-level rule fires exactly when the lower-cased message
      contains one of its keywords. */
  lemma TopLevelFiresOnKeywords(message: string)
    ensures forall j :: 0 <= j < |TopLevel| ==>
              Fires(TopLevel[j], message, Lower(message)) == AnyIn(Lower(message), TopLevel[j].keywords)
  {
    ExactLabelsRedundant();
  }

  /** Two messages whose rules fire alike get the same first match. */
  lemma {:induction false} FirstFiringAlike<T>(rules: seq<Rule<T>>, m1: string, l1: string, m2: string, l2: string)
    requires forall j :: 0 <= j < |rules| ==> Fires(rules[j], m1, l1) == Fires(rules[j], m2, l2)
    ensures FirstFiring(rules, m1, l1) == FirstFiring(rules, m2, l2)
    decreases |rules|
  {
    if rules != [] {
      assert Fires(rules[0], m1, l1) == Fires(rules[0], m2, l2);
      FirstFiringAlike(rules[1..], m1, l1, m2, l2);
    }
  }

  /** Routing is case-insensitive: messages that agree after lower-casing
      take the same branch, the exact-text tests included. */
  lemma RouteIgnoresCase(ctx: Context, m1: string, m2: string)
    requires Lower(m1) == Lower(m2)
    ensures RouteOf(ctx, m1) == RouteOf(ctx, m2)
  {
    if ctx.IsTopic() {
      FirstFiringAlike(SubTopics(ctx), m1, Lower(m1), m2, Lower(m2));
    } else {
      TopLevelFiresOnKeywords(m1);
      TopLevelFiresOnKeywords(m2);
      FirstFiringAlike(TopLevel, m1, Lower(m1), m2, Lower(m2));
    }
  }

  /** Sending the lower-cased message instead gets the same reply. */
  lemma RouteOfLowered(ctx: Context, message: string)
    ensures RouteOf(ctx, Lower(message)) == RouteOf(ctx, message)
  {
    LowerIdempotent(message);
    RouteIgnoresCase(ctx, Lower(message), message);
  }

  // ---------------------------------------------------------------------------
  // Quick replies

  /** The five top-level quick replies: the exact labels of TopLevel. */
  const TopicNames: seq<string> := ["Fees Information", "Administration", "Hostels", "Results", "General Information"]

  /** The last quick reply after a sub-topic's answer. */
  function BackOption(c: Context): string
  {
    match c
    case Fees => "Back to fees"
    case Administration => "Back to admin"
    case Hostels => "Back to hostels"
    case Results => "Back to results"
    case General => "Back to general"
    case _ => "Back to main"
  }

  /** The targets of a table, in order. */
  function Targets<T>(rules: seq<Rule<T>>): (ts: seq<T>)
    ensures |ts| == |rules|
    ensures forall j :: 0 <= j < |rules| ==> ts[j] == rules[j].target
    decreases |rules|
  {
    if rules == [] then [] else [rules[0].target] + Targets(rules[1..])
  }

  /** The sub-topics the engine can answer with in topic c. */
  predicate IsSubTopicOf(s: SubContext, c: Context)
  {
    s in Targets(SubTopics(c))
  }

  lemma SubTopicTargets(c: Context)
    ensures Targets(SubTopics(c)) ==
      match c
      case Fees => [Payment, Deadlines, Balance, Sponsorship]
      case Administration => [Registrar, Dean, Exam, Finance]
      case Hostels => [Application, HostelFees, Rules, Facilities]
      case Results => [Access, Transcript, Remarking, Supplementary]
      case General => [Library, Contacts, Events, Facilities]
      case _ => []
  {
    match c
    case Fees =>
    case Administration =>
    case Hostels =>
    case Results =>
    case General =>
    case _ =>
  }

  /** `getContextOptions(context, subContext)`. A context that is null or
      unrecognised gets the five topic names; a topic with a sub-topic of its
      own gets four follow-ups ending in "Back to <topic>"; a topic without
      one gets its four sub-topic names and "Back to main". */
  function ContextOptions(ctx: Context, sub: Option<SubContext>): (r: seq<string>)
    ensures !ctx.IsTopic() ==> r == TopicNames
  {
    match ctx
    case Fees =>
      if sub == Some(Payment) then ["Payment confirmation", "Receipt issues", "Bank details", "Back to fees"]
      else if sub == Some(Deadlines) then ["Installment plans", "Penalty waiver", "Extension request", "Back to fees"]
      else if sub == Some(Balance) then ["Balance dispute", "Payment history", "Refund process", "Back to fees"]
      else if sub == Some(Sponsorship) then ["HELB application", "Bursary status", "Corporate sponsorship", "Back to fees"]
      else ["Payment methods", "Deadlines", "Fee balance", "Sponsorships", "Back to main"]
    case Administration =>
      if sub == Some(Registrar) then ["Transcript status", "Certificate replacement", "Registration issues", "Back to admin"]
      else if sub == Some(Dean) then ["Counseling booking", "Club registration", "Disability services", "Back to admin"]
      else if sub == Some(Exam) then ["Exam card issues", "Special exams", "Result inquiries", "Back to admin"]
      else if sub == Some(Finance) then ["Receipt request", "Payment plans", "Sponsorship billing", "Back to admin"]
      else ["Registrar", "Dean of Students", "Exams", "Finance", "Back to main"]
    case Hostels =>
      if sub == Some(Application) then ["Application status", "Eligibility", "Required documents", "Back to hostels"]
      else if sub == Some(HostelFees) then ["Payment options", "Additional charges", "Refund policy", "Back to hostels"]
      else if sub == Some(Rules) then ["Visiting hours", "Prohibited items", "Complaint procedure", "Back to hostels"]
      else if sub == Some(Facilities) then ["Amenities", "Security", "Maintenance", "Back to hostels"]
      else ["Application", "Fees", "Rules", "Facilities", "Back to main"]
    case Results =>
      if sub == Some(Access) then ["Missing results", "SMS service", "Release schedule", "Back to results"]
      else if sub == Some(Transcript) then ["Order status", "Delivery options", "Verification", "Back to results"]
      else if sub == Some(Remarking) then ["Application process", "Fees", "Timeline", "Back to results"]
      else if sub == Some(Supplementary) then ["Registration", "Fees", "Schedule", "Back to results"]
      else ["Access results", "Transcripts", "Remarking", "Supp Exams", "Back to main"]
    case General =>
      if sub == Some(Library) then ["E-resources", "Borrowing rules", "Special services", "Back to general"]
      else if sub == Some(Contacts) then ["Emergency numbers", "Department contacts", "Campus locations", "Back to general"]
      else if sub == Some(Events) then ["Annual events", "Student activities", "Registration", "Back to general"]
      else if sub == Some(Facilities) then ["Learning facilities", "Recreational", "Health services", "Back to general"]
      else ["Library", "Contacts", "Events", "Facilities", "Back to main"]
    case _ => TopicNames
  }

  /** The shape of a quick-reply list: a topic with a sub-topic of its own
      gets four follow-ups ending in "Back to <topic>"; a topic without one
      gets a five-entry menu ending in "Back to main". */
  predicate OptionsShaped(ctx: Context, sub: Option<SubContext>)
  {
    var r := ContextOptions(ctx, sub);
    (ctx.IsTopic() && sub.Some? && IsSubTopicOf(sub.value, ctx) ==>
       |r| == 4 && r[3] == BackOption(ctx)) &&
    (ctx.IsTopic() && !(sub.Some? && IsSubTopicOf(sub.value, ctx)) ==>
       |r| == 5 && r[4] == "Back to main")
  }

  lemma ContextOptionsShape(ctx: Context, sub: Option<SubContext>)
    ensures OptionsShaped(ctx, sub)
  {
    if ctx.IsTopic() {
      if sub.Some? && IsSubTopicOf(sub.value, ctx) {
        match ctx
        case Fees => FeesFollowUps(sub.value);
        case Administration => AdministrationFollowUps(sub.value);
        case Hostels => HostelsFollowUps(sub.value);
        case Results => ResultsFollowUps(sub.value);
        case General => GeneralFollowUps(sub.value);
      } else {
        match ctx
        case Fees => FeesMenu(sub);
        case Administration => AdministrationMenu(sub);
        case Hostels => HostelsMenu(sub);
        case Results => ResultsMenu(sub);
        case General => GeneralMenu(sub);
      }
    }
  }

  lemma FeesFollowUps(s: SubContext)
    requires IsSubTopicOf(s, Fees)
    ensures |ContextOptions(Fees, Some(s))| == 4 && ContextOptions(Fees, Some(s))[3] == BackOption(Fees)
  {
    SubTopicTargets(Fees);
  }

  lemma FeesMenu(sub: Option<SubContext>)
    requires !(sub.Some? && IsSubTopicOf(sub.value, Fees))
    ensures ContextOptions(Fees, sub) == ["Payment methods", "Deadlines", "Fee balance", "Sponsorships", "Back to main"]
  {
    SubTopicTargets(Fees);
  }

  lemma AdministrationFollowUps(s: SubContext)
    requires IsSubTopicOf(s, Administration)
    ensures |ContextOptions(Administration, Some(s))| == 4 && ContextOptions(Administration, Some(s))[3] == BackOption(Administration)
  {
    SubTopicTargets(Administration);
  }

  lemma AdministrationMenu(sub: Option<SubContext>)
    requires !(sub.Some? && IsSubTopicOf(sub.value, Administration))
    ensures ContextOptions(Administration, sub) == ["Registrar", "Dean of Students", "Exams", "Finance", "Back to main"]
  {
    SubTopicTargets(Administration);
  }

  lemma HostelsFollowUps(s: SubContext)
    requires IsSubTopicOf(s, Hostels)
    ensures |ContextOptions(Hostels, Some(s))| == 4 && ContextOptions(Hostels, Some(s))[3] == BackOption(Hostels)
  {
    SubTopicTargets(Hostels);
  }

  lemma HostelsMenu(sub: Option<SubContext>)
    requires !(sub.Some? && IsSubTopicOf(sub.value, Hostels))
    ensures ContextOptions(Hostels, sub) == ["Application", "Fees", "Rules", "Facilities", "Back to main"]
  {
    SubTopicTargets(Hostels);
  }

  lemma ResultsFollowUps(s: SubContext)
    requires IsSubTopicOf(s, Results)
    ensures |ContextOptions(Results, Some(s))| == 4 && ContextOptions(Results, Some(s))[3] == BackOption(Results)
  {
    SubTopicTargets(Results);
  }

  lemma ResultsMenu(sub: Option<SubContext>)
    requires !(sub.Some? && IsSubTopicOf(sub.value, Results))
    ensures ContextOptions(Results, sub) == ["Access results", "Transcripts", "Remarking", "Supp Exams", "Back to main"]
  {
    SubTopicTargets(Results);
  }

  lemma GeneralFollowUps(s: SubContext)
    requires IsSubTopicOf(s, General)
    ensures |ContextOptions(General, Some(s))| == 4 && ContextOptions(General, Some(s))[3] == BackOption(General)
  {
    SubTopicTargets(General);
  }

  lemma GeneralMenu(sub: Option<SubContext>)
    requires !(sub.Some? && IsSubTopicOf(sub.value, General))
    ensures ContextOptions(General, sub) == ["Library", "Contacts", "Events", "Facilities", "Back to main"]
  {
    SubTopicTargets(General);
  }

  /** After a sub-topic answer, `handleUserInput` offers that sub-topic's
      four follow-ups, ending in "Back to <topic>". */
  lemma SubTopicAnswerOffersBack(ctx: Context, message: string)
    ensures var r := RouteOf(ctx, message);
            r.SubTopic? ==>
              var options := ContextOptions(ctx, Some(r.sub));
              |options| == 4 && options[3] == BackOption(ctx)
  {
    var r := RouteOf(ctx, message);
    if r.SubTopic? {
      ContextOptionsShape(ctx, Some(r.sub));
    }
  }

  /** The top-level quick replies are the exact labels of the detection
      table, in the same order. */
  lemma TopicNamesAreLabels()
    ensures |TopicNames| == |TopLevel|
    ensures forall j :: 0 <= j < |TopLevel| ==> TopLevel[j].exact == Some(TopicNames[j])
  {
  }
}

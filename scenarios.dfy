/** The engine on concrete messages: the orderings and overrides that the
    keyword tables produce, and what the quick replies do when they are
    sent back as messages. The substring facts about each message are
    established first, in lemmas named after it (Quiet: its lower-cased form
    and the absence of tier 1 and 2 keywords; Misses: the rules it does not
    fire); the message is then routed with the general lemmas of module
    Dialogue. */
module Scenarios {
  import opened Strings
  import opened Dialogue

  // ---------------------------------------------------------------------------
  // Tier 1 overrides everything

  lemma BackToExamResultsFacts()
    ensures Lower("back to exam results") == "back to exam results"
    ensures AnyIn("back to exam results", ReturnKeywords)
    ensures AnyIn("back to exam results", SubTopics(Administration)[2].keywords)
  {
    assert OccursAt("back to exam results", "back", 0);
    assert OccursAt("back to exam results", "exam", 8);
  }

  /** "back to exam results" in the administration topic returns to the
      menu with context null, although it also contains the keyword of the
      administration sub-topic 'exam'. */
  lemma BackToExamResults()
    ensures AnyIn(Lower("back to exam results"), SubTopics(Administration)[2].keywords)
    ensures RouteOf(Administration, "back to exam results") == ToMainMenu
    ensures ReplyFor(Administration, RouteOf(Administration, "back to exam results"), 0) ==
              Reply(MenuReturn, Null, None)
  {
    BackToExamResultsFacts();
    ReturnToMenuFirst(Administration, "back to exam results");
  }

  /** The lower-cased "Back to ..." quick reply of every context starts
      with 'back'. */
  lemma BackOptionSaysBack(c: Context)
    ensures AnyIn(Lower(BackOption(c)), ReturnKeywords)
  {
    var l := Lower(BackOption(c));
    assert l[0..4] == "back";
    assert OccursAt(l, "back", 0);
  }

  /** The last quick reply of every follow-up list and of every topic menu,
      "Back to <topic>" or "Back to main", sent in any context, returns to
      the main menu with context null: none of them leads back to the
      topic's own menu. */
  lemma BackOptionsReturnToMenu(ctx: Context, c: Context)
    ensures RouteOf(ctx, BackOption(c)) == ToMainMenu
    ensures RouteOf(ctx, "Back to main") == ToMainMenu
    ensures ReplyFor(ctx, RouteOf(ctx, BackOption(c)), 0).context == Null
  {
    BackOptionSaysBack(c);
    BackOptionSaysBack(Null);
    ReturnToMenuFirst(ctx, BackOption(c));
    ReturnToMenuFirst(ctx, "Back to main");
  }

  // ---------------------------------------------------------------------------
  // Tier 2

  lemma ThankYouLower()
    ensures Lower("Thank you") == "thank you"
  {
  }

  lemma ThankYouQuiet()
    ensures !AnyIn("thank you", ReturnKeywords)
  {
    var l := "thank you";
    NoneIn(l, ReturnKeywords, "bmsm");
  }

  /** "Thank you" in the results topic is answered with the gratitude text
      and the conversation stays in results, with no sub-context. */
  lemma ThankYouInResults()
    ensures RouteOf(Results, "Thank you") == Thanks
    ensures ReplyFor(Results, RouteOf(Results, "Thank you"), 0) == Reply(YoureWelcome, Results, None)
  {
    ThankYouLower();
    ThankYouQuiet();
    assert OccursAt("thank you", "thank", 0);
    ThanksKeepsContext(Results, "Thank you", 0);
  }

  // ---------------------------------------------------------------------------
  // Tier 3: sub-topics in declared order

  lemma LatePaymentLower()
    ensures Lower("late payment") == "late payment"
  {
  }

  lemma LatePaymentQuiet()
    ensures !AnyIn("late payment", ReturnKeywords) && !AnyIn("late payment", ThanksKeywords)
  {
    var l := "late payment";
    NoneIn(l, ReturnKeywords, "bish");
    NoneIn(l, ThanksKeywords, "hh");
  }

  /** "late payment" in fees contains a payment keyword and a deadline
      keyword; payment is tested first and answers. */
  lemma LatePaymentIsPayment()
    ensures AnyIn(Lower("late payment"), SubTopics(Fees)[1].keywords)
    ensures RouteOf(Fees, "late payment") == SubTopic(Payment)
  {
    LatePaymentLower();
    LatePaymentQuiet();
    var rules := SubTopics(Fees);
    assert rules[0].keywords == ["payment", "method", "mpesa", "bank"];
    assert rules[1].keywords == ["deadline", "due date", "late"];
    assert OccursAt("late payment", "payment", 5);
    assert OccursAt("late payment", "late", 0);
    SubTopicChosen(Fees, "late payment", 0);
  }

  lemma KelvinBankLower()
    ensures Lower("BAN\U{212A}") == "bank"
  {
  }

  lemma KelvinBankQuiet()
    ensures !AnyIn("bank", ReturnKeywords) && !AnyIn("bank", ThanksKeywords)
  {
    var l := "bank";
    NoneIn(l, ReturnKeywords, "cmsh");
    NoneIn(l, ThanksKeywords, "tt");
  }

  /** "BAN" followed by KELVIN SIGN lower-cases to "bank", so in fees it is
      answered by payment. */
  lemma KelvinBankIsPayment()
    ensures RouteOf(Fees, "BAN\U{212A}") == SubTopic(Payment)
  {
    KelvinBankLower();
    KelvinBankQuiet();
    assert OccursAt("bank", "bank", 0);
    SubTopicChosen(Fees, "BAN\U{212A}", 0);
  }

  lemma RecheckLower()
    ensures Lower("recheck") == "recheck"
  {
  }

  lemma RecheckQuiet()
    ensures !AnyIn("recheck", ReturnKeywords) && !AnyIn("recheck", ThanksKeywords)
  {
    var l := "recheck";
    NoneIn(l, ReturnKeywords, "bmso");
    NoneIn(l, ThanksKeywords, "tt");
  }

  /** "recheck" in results is a remarking keyword, but it contains 'check',
      a keyword of access, which is tested first and answers. */
  lemma RecheckIsAccess()
    ensures AnyIn(Lower("recheck"), SubTopics(Results)[2].keywords)
    ensures RouteOf(Results, "recheck") == SubTopic(Access)
  {
    RecheckLower();
    RecheckQuiet();
    var rules := SubTopics(Results);
    assert rules[0].keywords == ["access", "check", "view"];
    assert rules[2].keywords == ["remark", "recheck", "appeal"];
    assert OccursAt("recheck", "recheck", 0);
    assert OccursAt("recheck", "check", 2);
    SubTopicChosen(Results, "recheck", 0);
  }

  /** A message the remarking sub-topic answers misses the access keywords
      and hits a remarking one. */
  lemma RemarkingAnswerKeywords(message: string)
    requires RouteOf(Results, message) == SubTopic(Remarking)
    ensures !AnyIn(Lower(message), SubTopics(Results)[0].keywords)
    ensures AnyIn(Lower(message), SubTopics(Results)[2].keywords)
  {
    SubTopicAnswerAt(Results, message, 2);
  }

  /** Without 'check', a remarking keyword is 'remark' or 'appeal'. */
  lemma RemarkWithoutCheck(lower: string)
    requires !AnyIn(lower, SubTopics(Results)[0].keywords)
    requires AnyIn(lower, SubTopics(Results)[2].keywords)
    ensures Contains(lower, "remark") || Contains(lower, "appeal")
  {
    assert SubTopics(Results)[0].keywords == ["access", "check", "view"];
    assert SubTopics(Results)[2].keywords == ["remark", "recheck", "appeal"];
    assert OccursAt("recheck", "check", 2);
    ContainsPart(lower, "recheck", "check", 2);
  }

  /** So the keyword 'recheck' never decides a reply: every message that the
      remarking sub-topic answers contains 'remark' or 'appeal'. */
  lemma RecheckNeverDecides(message: string)
    ensures RouteOf(Results, message) == SubTopic(Remarking) ==>
              Contains(Lower(message), "remark") || Contains(Lower(message), "appeal")
  {
    if RouteOf(Results, message) == SubTopic(Remarking) {
      RemarkingAnswerKeywords(message);
      RemarkWithoutCheck(Lower(message));
    }
  }

  lemma BookARoomLower()
    ensures Lower("book a room") == "book a room"
  {
  }

  lemma BookARoomQuiet()
    ensures !AnyIn("book a room", ReturnKeywords) && !AnyIn("book a room", ThanksKeywords)
  {
    var l := "book a room";
    NoneIn(l, ReturnKeywords, "cish");
    NoneIn(l, ThanksKeywords, "tt");
  }

  /** "book a room" in hostels contains an application keyword and a
      facilities keyword; application is tested first and answers. */
  lemma BookARoomIsApplication()
    ensures AnyIn(Lower("book a room"), SubTopics(Hostels)[3].keywords)
    ensures RouteOf(Hostels, "book a room") == SubTopic(Application)
  {
    BookARoomLower();
    BookARoomQuiet();
    var rules := SubTopics(Hostels);
    assert rules[0].keywords == ["application", "apply", "book"];
    assert rules[3].keywords == ["facilit", "amenit", "room"];
    assert OccursAt("book a room", "book", 0);
    assert OccursAt("book a room", "room", 7);
    SubTopicChosen(Hostels, "book a room", 0);
  }

  lemma SuppExamsLower()
    ensures Lower("Supp Exams") == "supp exams"
  {
  }

  lemma SuppExamsQuiet()
    ensures !AnyIn("supp exams", ReturnKeywords) && !AnyIn("supp exams", ThanksKeywords)
  {
    var l := "supp exams";
    NoneIn(l, ReturnKeywords, "bith");
    NoneIn(l, ThanksKeywords, "tt");
  }

  lemma SuppExamsMisses0()
    ensures !AnyIn("supp exams", SubTopics(Results)[0].keywords)
  {
    var l := "supp exams";
    NoneIn(l, SubTopics(Results)[0].keywords, "ccv");
  }

  lemma SuppExamsMisses1()
    ensures !AnyIn("supp exams", SubTopics(Results)[1].keywords)
  {
    var l := "supp exams";
    NoneIn(l, SubTopics(Results)[1].keywords, "tcc");
  }

  lemma SuppExamsMisses2()
    ensures !AnyIn("supp exams", SubTopics(Results)[2].keywords)
  {
    var l := "supp exams";
    NoneIn(l, SubTopics(Results)[2].keywords, "rrl");
  }

  lemma SuppExamsMisses3()
    ensures !AnyIn("supp exams", SubTopics(Results)[3].keywords)
  {
    var l := "supp exams";
    NoneIn(l, SubTopics(Results)[3].keywords, "lrr");
  }

  /** "Supp Exams", the last item of the results menu, matches none of the
      results sub-topics ('supplement' is longer than "supp"): it gets the
      results default text and no sub-context. */
  lemma SuppExamsIsDefault()
    ensures RouteOf(Results, "Supp Exams") == StayDefault
    ensures ReplyFor(Results, RouteOf(Results, "Supp Exams"), 0) == Reply(TopicDefault(Results), Results, None)
  {
    SuppExamsLower();
    SuppExamsQuiet();
    SuppExamsMisses0();
    SuppExamsMisses1();
    SuppExamsMisses2();
    SuppExamsMisses3();
    ReturnToMenuFirst(Results, "Supp Exams");
    ThanksKeepsContext(Results, "Supp Exams", 0);
    DefaultWhenNoSubTopic(Results, "Supp Exams", 0);
  }

  // ---------------------------------------------------------------------------
  // Tier 4: detection order

  lemma ExamFeesLower()
    ensures Lower("exam fees") == "exam fees"
  {
  }

  lemma ExamFeesQuiet()
    ensures !AnyIn("exam fees", ReturnKeywords) && !AnyIn("exam fees", ThanksKeywords)
  {
    var l := "exam fees";
    NoneIn(l, ReturnKeywords, "bith");
    NoneIn(l, ThanksKeywords, "tt");
  }

  /** "exam fees" with no topic contains a fees keyword and a results
      keyword; fees is tested first and is selected. */
  lemma ExamFeesIsFees()
    ensures Fires(TopLevel[3], "exam fees", Lower("exam fees"))
    ensures RouteOf(Null, "exam fees") == Detected(Fees)
  {
    ExamFeesLower();
    ExamFeesQuiet();
    assert OccursAt("exam fees", "fee", 5);
    assert OccursAt("exam fees", "exam", 0);
    TopicDetected(Null, "exam fees", 0);
  }

  lemma ExamLower()
    ensures Lower("exam") == "exam"
  {
  }

  lemma ExamQuiet()
    ensures !AnyIn("exam", ReturnKeywords) && !AnyIn("exam", ThanksKeywords)
  {
    var l := "exam";
    NoneIn(l, ReturnKeywords, "bish");
    NoneIn(l, ThanksKeywords, "tt");
  }

  lemma ExamMisses0()
    ensures !Fires(TopLevel[0], "exam", "exam")
  {
    var l := "exam";
    NoneIn(l, TopLevel[0].keywords, "fps");
  }

  lemma ExamMisses1()
    ensures !Fires(TopLevel[1], "exam", "exam")
  {
    var l := "exam";
    NoneIn(l, TopLevel[1].keywords, "drd");
  }

  lemma ExamMisses2()
    ensures !Fires(TopLevel[2], "exam", "exam")
  {
    var l := "exam";
    NoneIn(l, TopLevel[2].keywords, "hcd");
  }

  /** "exam" alone with no topic selects results. */
  lemma ExamIsResults()
    ensures RouteOf(Null, "exam") == Detected(Results)
  {
    ExamLower();
    ExamQuiet();
    ExamMisses0();
    ExamMisses1();
    ExamMisses2();
    assert OccursAt("exam", "exam", 0);
    TopicDetected(Null, "exam", 3);
  }

  // ---------------------------------------------------------------------------
  // The top-level quick replies sent back

  lemma FeesInformationLower()
    ensures Lower("Fees Information") == "fees information"
  {
  }

  lemma FeesInformationQuiet()
    ensures !AnyIn("fees information", ReturnKeywords) && !AnyIn("fees information", ThanksKeywords)
  {
    var l := "fees information";
    NoneIn(l, ReturnKeywords, "buvh");
    NoneIn(l, ThanksKeywords, "hh");
  }

  lemma FeesInformationSelectsFees()
    ensures RouteOf(Null, "Fees Information") == Detected(TopLevel[0].target)
  {
    FeesInformationLower();
    FeesInformationQuiet();
    assert OccursAt("fees information", "fee", 0);
    TopicDetected(Null, "Fees Information", 0);
  }

  lemma AdministrationLower()
    ensures Lower("Administration") == "administration"
  {
  }

  lemma AdministrationQuiet()
    ensures !AnyIn("administration", ReturnKeywords) && !AnyIn("administration", ThanksKeywords)
  {
    var l := "administration";
    NoneIn(l, ReturnKeywords, "bevh");
    NoneIn(l, ThanksKeywords, "hh");
  }

  lemma AdministrationMisses0()
    ensures !Fires(TopLevel[0], "Administration", "administration")
  {
    var l := "administration";
    NoneIn(l, TopLevel[0].keywords, "fpp");
  }

  lemma AdministrationSelectsAdministration()
    ensures RouteOf(Null, "Administration") == Detected(TopLevel[1].target)
  {
    AdministrationLower();
    AdministrationQuiet();
    AdministrationMisses0();
    assert OccursAt("administration", "admin", 0);
    TopicDetected(Null, "Administration", 1);
  }

  lemma HostelsLower()
    ensures Lower("Hostels") == "hostels"
  {
  }

  lemma HostelsQuiet()
    ensures !AnyIn("hostels", ReturnKeywords) && !AnyIn("hostels", ThanksKeywords)
  {
    var l := "hostels";
    NoneIn(l, ReturnKeywords, "bmam");
    NoneIn(l, ThanksKeywords, "aa");
  }

  lemma HostelsMisses0()
    ensures !Fires(TopLevel[0], "Hostels", "hostels")
  {
    var l := "hostels";
    NoneIn(l, TopLevel[0].keywords, "fpp");
  }

  lemma HostelsMisses1()
    ensures !Fires(TopLevel[1], "Hostels", "hostels")
  {
    var l := "hostels";
    NoneIn(l, TopLevel[1].keywords, "ard");
  }

  lemma HostelsSelectsHostels()
    ensures RouteOf(Null, "Hostels") == Detected(TopLevel[2].target)
  {
    HostelsLower();
    HostelsQuiet();
    HostelsMisses0();
    HostelsMisses1();
    assert OccursAt("hostels", "hostel", 0);
    TopicDetected(Null, "Hostels", 2);
  }

  lemma ResultsLower()
    ensures Lower("Results") == "results"
  {
  }

  lemma ResultsQuiet()
    ensures !AnyIn("results", ReturnKeywords) && !AnyIn("results", ThanksKeywords)
  {
    var l := "results";
    NoneIn(l, ReturnKeywords, "bmah");
    NoneIn(l, ThanksKeywords, "hh");
  }

  lemma ResultsMisses0()
    ensures !Fires(TopLevel[0], "Results", "results")
  {
    var l := "results";
    NoneIn(l, TopLevel[0].keywords, "fpp");
  }

  lemma ResultsMisses1()
    ensures !Fires(TopLevel[1], "Results", "results")
  {
    var l := "results";
    NoneIn(l, TopLevel[1].keywords, "agd");
  }

  lemma ResultsMisses2()
    ensures !Fires(TopLevel[2], "Results", "results")
  {
    var l := "results";
    NoneIn(l, TopLevel[2].keywords, "had");
  }

  lemma ResultsSelectsResults()
    ensures RouteOf(Null, "Results") == Detected(TopLevel[3].target)
  {
    ResultsLower();
    ResultsQuiet();
    ResultsMisses0();
    ResultsMisses1();
    ResultsMisses2();
    assert OccursAt("results", "result", 0);
    TopicDetected(Null, "Results", 3);
  }

  lemma GeneralInformationLower()
    ensures Lower("General Information") == "general information"
  {
  }

  lemma GeneralInformationQuiet()
    ensures !AnyIn("general information", ReturnKeywords) && !AnyIn("general information", ThanksKeywords)
  {
    var l := "general information";
    NoneIn(l, ReturnKeywords, "bush");
    NoneIn(l, ThanksKeywords, "hh");
  }

  lemma GeneralInformationMisses0()
    ensures !Fires(TopLevel[0], "General Information", "general information")
  {
    var l := "general information";
    ContainsIsScan(l, "fee");
    AbsentByChar(l, "payment", 'p');
    AbsentByChar(l, "sponsor", 's');
  }

  lemma GeneralInformationMisses1()
    ensures !Fires(TopLevel[1], "General Information", "general information")
  {
    var l := "general information";
    NoneIn(l, TopLevel[1].keywords, "dsd");
  }

  lemma GeneralInformationMisses2()
    ensures !Fires(TopLevel[2], "General Information", "general information")
  {
    var l := "general information";
    NoneIn(l, TopLevel[2].keywords, "hcd");
  }

  lemma GeneralInformationMisses3()
    ensures !Fires(TopLevel[3], "General Information", "general information")
  {
    var l := "general information";
    NoneIn(l, TopLevel[3].keywords, "ssx");
  }

  lemma GeneralInformationSelectsGeneral()
    ensures RouteOf(Null, "General Information") == Detected(TopLevel[4].target)
  {
    GeneralInformationLower();
    GeneralInformationQuiet();
    GeneralInformationMisses0();
    GeneralInformationMisses1();
    GeneralInformationMisses2();
    GeneralInformationMisses3();
    assert OccursAt("general information", "general", 0);
    TopicDetected(Null, "General Information", 4);
  }

  /** Each of the five top-level quick replies, sent with no topic, selects
      its own topic. */
  lemma TopicNameSelectsItsTopic(j: nat)
    requires j < |TopicNames|
    ensures RouteOf(Null, TopicNames[j]) == Detected(TopLevel[j].target)
  {
    if j == 0 {
      FeesInformationSelectsFees();
    } else if j == 1 {
      AdministrationSelectsAdministration();
    } else if j == 2 {
      HostelsSelectsHostels();
    } else if j == 3 {
      ResultsSelectsResults();
    } else {
      GeneralInformationSelectsGeneral();
    }
  }
}

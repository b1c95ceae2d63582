/**
 * The support page: the troubleshooting guide with its severity badges and
 * the FAQ accordion, in which at most one answer is open at a time.
 */
module Support {
  import opened Text

  /** One question of the FAQ accordion. */
  datatype Faq = Faq(question: string, answer: string)

  /** One entry of the troubleshooting guide. */
  datatype Issue = Issue(title: string, steps: seq<string>, severity: string)

  /** The troubleshooting guide, in display order. */
  const Troubleshooting: seq<Issue> :=
    [ Issue("Bot Not Responding",
        [ "Check if the bot is online in your server",
          "Verify the bot has 'Use Slash Commands' permission",
          "Try using /ping to test connectivity",
          "Ensure the bot role is above the roles it needs to manage" ],
        "high"),
      Issue("Commands Not Working",
        [ "Verify you have the required permissions for the command",
          "Check if the command syntax is correct",
          "Ensure the bot has necessary permissions in the channel",
          "Try refreshing Discord or using a different device" ],
        "medium"),
      Issue("Voice Channel Management Issues",
        [ "Verify the bot has 'Manage Channels' permission",
          "Check that the specified channels exist",
          "Ensure the required role exists and is configured correctly",
          "Verify the member count threshold is set appropriately" ],
        "medium"),
      Issue("Pomodoro Timer Problems",
        [ "Use /pomodoro setup to configure your settings first",
          "Check if you have an active session running",
          "Try stopping the current session with /pomodoro stopsession",
          "Verify the bot can send messages in the channel" ],
        "low") ]

  /** Four issues of four steps each, from high to low severity. */
  lemma TroubleshootingShape()
    ensures |Troubleshooting| == 4
    ensures forall issue :: issue in Troubleshooting ==> |issue.steps| == 4
    ensures Troubleshooting[0].severity == "high" && Troubleshooting[3].severity == "low"
  {
  }

  /** The FAQ entries, in display order. */
  const Faqs: seq<Faq> :=
    [ Faq("How do I add CrizModo to my Discord server?",
        "Click the 'Add to Discord' button on our homepage and select your server. Make sure you have 'Manage Server' permission in the target server."),
      Faq("What permissions does the bot need?",
        "CrizModo requires: Manage Channels, View Channels, Use Slash Commands, Send Messages, and Manage Roles. These are automatically requested during the invite process."),
      Faq("Can multiple users use the Pomodoro timer simultaneously?",
        "Yes! Each user has their own personal Pomodoro settings and can run independent timer sessions without interfering with others."),
      Faq("How does the voice channel management work?",
        "The bot monitors a primary voice channel's member count. When it reaches your threshold, a secondary channel becomes visible to specified roles. When the count drops and the secondary channel is empty, it becomes hidden again."),
      Faq("Are my settings saved if the bot restarts?",
        "Yes! All user settings, configurations, and active sessions are saved to MongoDB and will persist through bot restarts or updates."),
      Faq("Can I customize the Pomodoro timer durations?",
        "Absolutely! Use /pomodoro setup to set custom work sessions (5-180 min), breaks (1-60 min), long breaks (30-120 min), and session counts (1-10)."),
      Faq("Is there a limit to how many servers can use the bot?",
        "No, CrizModo can be added to unlimited servers. Each server maintains its own independent configuration and settings."),
      Faq("How do I report a bug or request a feature?",
        "You can report bugs or request features through our GitHub repository, Discord server, or by contacting us directly via email.") ]

  /** The number of FAQ entries, and so of accordion panels. */
  const FaqCount: nat := 8

  lemma FaqCountIsLength()
    ensures |Faqs| == FaqCount
  {
  }

  const HighColor: string := "bg-red-100 text-red-800"
  const MediumColor: string := "bg-yellow-100 text-yellow-800"
  const LowColor: string := "bg-green-100 text-green-800"
  const GrayColor: string := "bg-gray-100 text-gray-800"

  /** `getSeverityColor`: the badge classes of a severity; unknown ones are gray. */
  function SeverityColor(severity: string): (r: string)
    ensures r in {HighColor, MediumColor, LowColor, GrayColor}
    ensures r == HighColor <==> severity == "high"
    ensures r == MediumColor <==> severity == "medium"
    ensures r == LowColor <==> severity == "low"
    ensures r == GrayColor <==> severity !in {"high", "medium", "low"}
  {
    match severity
    case "high" => HighColor
    case "medium" => MediumColor
    case "low" => LowColor
    case _ => GrayColor
  }

  /** Every entry of the guide has one of the three known severities. */
  lemma IssuesHaveKnownSeverity()
    ensures forall issue :: issue in Troubleshooting ==> SeverityColor(issue.severity) != GrayColor
  {
    forall issue | issue in Troubleshooting ensures SeverityColor(issue.severity) != GrayColor {
      assert issue.severity in {"high", "medium", "low"};
    }
  }

  /** `expandedFaq`: `false` when every answer is closed, else the key of the open panel. */
  datatype Expanded = Closed | Open(panel: string)

  /** The key of the FAQ at `index`: the template literal `panel${index}`. */
  function PanelKey(index: nat): (r: string)
    ensures |r| > 5 && r[..5] == "panel" && r[5..] == Decimal(index)
    ensures index < 10 ==> r == "panel" + [Digit(index)]
  {
    "panel" + Decimal(index)
  }

  /** Different questions have different keys. */
  lemma PanelKeyInjective(i: nat, j: nat)
    requires PanelKey(i) == PanelKey(j)
    ensures i == j
  {
    assert Decimal(i) == PanelKey(i)[5..] == PanelKey(j)[5..] == Decimal(j);
    DecimalInjective(i, j);
  }

  /** `handleFaqChange`: clicking the open panel closes it, clicking any other opens it. */
  function Toggle(expanded: Expanded, panel: string): (r: Expanded)
    ensures r == Closed <==> expanded == Open(panel)
    ensures r != Closed ==> r == Open(panel)
  {
    if expanded == Open(panel) then Closed else Open(panel)
  }

  /** The answer of the FAQ at `index` is rendered. */
  predicate AnswerShown(expanded: Expanded, index: nat)
    ensures expanded == Closed ==> !AnswerShown(expanded, index)
    ensures AnswerShown(expanded, index) ==>
      expanded.Open? && |expanded.panel| > 5 && expanded.panel[5..] == Decimal(index)
  {
    expanded == Open(PanelKey(index))
  }

  /** At most one answer is rendered at any time. */
  lemma AtMostOneAnswerShown(expanded: Expanded, i: nat, j: nat)
    requires AnswerShown(expanded, i) && AnswerShown(expanded, j)
    ensures i == j
  {
    PanelKeyInjective(i, j);
  }

  /** Once the answer at `i` is shown, it is the only one. */
  lemma OnlyThisAnswerShown(expanded: Expanded, i: nat)
    requires AnswerShown(expanded, i)
    ensures forall j: nat :: AnswerShown(expanded, j) ==> j == i
  {
    forall j: nat | AnswerShown(expanded, j) ensures j == i {
      AtMostOneAnswerShown(expanded, i, j);
    }
  }

  /** Clicking a closed question shows its answer and no other, whatever was open. */
  lemma ClickOpensOnlyThat(expanded: Expanded, i: nat, j: nat)
    requires !AnswerShown(expanded, i)
    ensures AnswerShown(Toggle(expanded, PanelKey(i)), j) <==> j == i
  {
    if AnswerShown(Toggle(expanded, PanelKey(i)), j) {
      PanelKeyInjective(i, j);
    }
  }

  /** Clicking the open question leaves every answer closed. */
  lemma ClickClosesOpen(expanded: Expanded, i: nat, j: nat)
    requires AnswerShown(expanded, i)
    ensures !AnswerShown(Toggle(expanded, PanelKey(i)), j)
  {
  }

  /** Clicking the same panel twice: from its own open state it reopens, from anything else it ends closed. */
  lemma ToggleTwice(expanded: Expanded, panel: string)
    ensures Toggle(Toggle(expanded, panel), panel) == if expanded == Open(panel) then expanded else Closed
  {
  }

  /** The states the buttons can reach: closed, or the key of one of the FAQs. */
  ghost predicate Reachable(expanded: Expanded)
  {
    expanded == Closed || exists i: nat :: i < FaqCount && expanded == Open(PanelKey(i))
  }

  /** Clicking a question keeps the state among the reachable ones. */
  lemma ClickKeepsReachable(expanded: Expanded, index: nat)
    requires Reachable(expanded) && index < FaqCount
    ensures Reachable(Toggle(expanded, PanelKey(index)))
  {
  }

  /** The state of the FAQ accordion. */
  class SupportPage {
    var expandedFaq: Expanded

    ghost predicate Valid()
      reads this
    {
      Reachable(expandedFaq)
    }

    /** The page opens with every answer closed. */
    constructor ()
      ensures expandedFaq == Closed && Valid()
      ensures forall i: nat :: !ShowsAnswer(i)
    {
      expandedFaq := Closed;
    }

    /** The answer of the FAQ at `index` is rendered. */
    predicate ShowsAnswer(index: nat)
      reads this
      ensures ShowsAnswer(index) ==> expandedFaq.Open?
      ensures ShowsAnswer(index) ==> forall j: nat :: AnswerShown(expandedFaq, j) ==> j == index
    {
      if AnswerShown(expandedFaq, index) then
        OnlyThisAnswerShown(expandedFaq, index);
        true
      else
        false
    }

    /** `handleFaqChange(panel)`, called by the questions with their own keys. */
    method HandleFaqChange(panel: string)
      requires Valid() && exists i: nat :: i < FaqCount && panel == PanelKey(i)
      modifies this
      ensures Valid()
      ensures expandedFaq == Toggle(old(expandedFaq), panel)
    {
      expandedFaq := Toggle(expandedFaq, panel);
    }

    /** The click on the question at `index`, which passes `panel${index}`. */
    method ClickQuestion(index: nat)
      requires Valid() && index < FaqCount
      modifies this
      ensures Valid()
      ensures expandedFaq == Toggle(old(expandedFaq), PanelKey(index))
      ensures forall j: nat :: j != index ==> !ShowsAnswer(j)
      ensures ShowsAnswer(index) <==> !old(ShowsAnswer(index))
    {
      ghost var before := expandedFaq;
      HandleFaqChange(PanelKey(index));
      forall j: nat | j != index ensures !ShowsAnswer(j) {
        if AnswerShown(before, index) {
          ClickClosesOpen(before, index, j);
        } else {
          ClickOpensOnlyThat(before, index, j);
        }
      }
    }
  }
}

/**
 * The command reference page: the fixed list of slash commands, the category
 * tabs, the search-and-category filter over the list, the colour of a
 * category badge, and the page's two pieces of state (the search text and
 * the selected tab).
 */
module Commands {
  import opened Text

  /** One typed option of a slash command. */
  datatype CommandOption = CommandOption(name: string, kind: string, description: string, required: bool)

  /** One slash command as the page describes it. */
  datatype Command = Command(
    command: string,
    description: string,
    category: string,
    permissions: seq<string>,
    options: seq<CommandOption>,
    examples: seq<string>)

  /** One category tab above the list. */
  datatype CategoryTab = CategoryTab(id: string, caption: string, icon: string)

  /** The tab that shows every category. */
  const All: string := "all"

  /** The category tabs, in display order. */
  function CommandCategories(): (r: seq<CategoryTab>)
    ensures |r| == 4 && r[0].id == All
    ensures forall i, j :: 0 <= i < j < |r| ==> r[i].id != r[j].id
  {
    [ CategoryTab(All, "All Commands", "\U{1F4CB}"),
      CategoryTab("pomodoro", "Pomodoro", "\U{23F1}\U{FE0F}"),
      CategoryTab("voice", "Voice Management", "\U{1F50A}"),
      CategoryTab("general", "General", "\U{2699}\U{FE0F}") ]
  }

  /** The commands, in display order. */
  const AllCommands: seq<Command> :=
    [ Command("/pomodoro setup",
        "Configure your personal Pomodoro timer settings with custom durations and session counts.",
        "pomodoro", ["Use Application Commands"],
        [ CommandOption("work", "Integer", "Work session duration (5-180 minutes)", false),
          CommandOption("break", "Integer", "Short break duration (1-60 minutes)", false),
          CommandOption("longbreak", "Integer", "Long break duration (30-120 minutes)", false),
          CommandOption("sessions", "Integer", "Sessions before long break (1-10)", false),
          CommandOption("max-sessions", "Integer", "Maximum total sessions (1-10)", false) ],
        [ "/pomodoro setup work:25 break:5 longbreak:15 sessions:4",
          "/pomodoro setup work:50 break:10 max-sessions:6",
          "/pomodoro setup longbreak:30 sessions:3" ]),
      Command("/pomodoro start",
        "Start a new Pomodoro session using your configured settings with interactive controls.",
        "pomodoro", ["Use Application Commands"], [], ["/pomodoro start"]),
      Command("/pomodoro rest",
        "Take a manual break using your configured short break duration.",
        "pomodoro", ["Use Application Commands"], [], ["/pomodoro rest"]),
      Command("/pomodoro skip",
        "Skip the current phase and move to the next work or break session.",
        "pomodoro", ["Use Application Commands"], [], ["/pomodoro skip"]),
      Command("/pomodoro stopsession",
        "Stop the current Pomodoro session completely and reset all timers.",
        "pomodoro", ["Use Application Commands"], [], ["/pomodoro stopsession"]),
      Command("/pomodoro help",
        "Get detailed help and usage information about all Pomodoro commands.",
        "pomodoro", ["Use Application Commands"], [], ["/pomodoro help"]),
      Command("/enable-roomactivecheck",
        "Configure dynamic voice channel visibility based on member count and role management.",
        "voice", ["Manage Channels", "Manage Roles"],
        [ CommandOption("enabled", "Boolean", "Enable or disable the feature", true),
          CommandOption("primary-channel", "Channel", "Voice channel to monitor for member count", true),
          CommandOption("secondary-channel", "Channel", "Voice channel to show/hide based on activity", false),
          CommandOption("required-role", "Role", "Role that can see the secondary channel when active", false),
          CommandOption("threshold", "Integer", "Member count threshold (1-50, default: 10)", false) ],
        [ "/enable-roomactivecheck enabled:true primary-channel:#study-hall secondary-channel:#overflow required-role:@Students",
          "/enable-roomactivecheck enabled:true primary-channel:#general threshold:15",
          "/enable-roomactivecheck enabled:false" ]),
      Command("/ping",
        "Check if the bot is responsive and view current latency statistics.",
        "general", ["Use Application Commands"], [], ["/ping"]) ]

  /** Eight commands, no two with the same name. */
  lemma CommandListShape()
    ensures |AllCommands| == 8
    ensures forall i, j :: 0 <= i < j < |AllCommands| ==> AllCommands[i].command != AllCommands[j].command
  {
  }

  /** The name or the description contains the search term, ignoring case. */
  predicate MatchesSearch(cmd: Command, searchTerm: string)
    ensures searchTerm == "" ==> MatchesSearch(cmd, searchTerm)
    ensures MatchesSearch(cmd, searchTerm) <==>
      Contains(Lower(cmd.command), Lower(searchTerm)) || Contains(Lower(cmd.description), Lower(searchTerm))
  {
    var name, text, term := Lower(cmd.command), Lower(cmd.description), Lower(searchTerm);
    IncludesIff(name, term);
    IncludesIff(text, term);
    Includes(name, term) || Includes(text, term)
  }

  /** The command belongs to the selected tab. */
  predicate MatchesCategory(cmd: Command, selectedCategory: string)
    ensures selectedCategory == All ==> MatchesCategory(cmd, selectedCategory)
    ensures selectedCategory != All ==> (MatchesCategory(cmd, selectedCategory) <==> cmd.category == selectedCategory)
  {
    selectedCategory == All || cmd.category == selectedCategory
  }

  /** Both filters keep the command. */
  predicate Matches(cmd: Command, searchTerm: string, selectedCategory: string)
    ensures searchTerm == "" ==> (Matches(cmd, searchTerm, selectedCategory) <==> MatchesCategory(cmd, selectedCategory))
    ensures selectedCategory == All ==> (Matches(cmd, searchTerm, selectedCategory) <==> MatchesSearch(cmd, searchTerm))
  {
    MatchesSearch(cmd, searchTerm) && MatchesCategory(cmd, selectedCategory)
  }

  /** `filteredCommands`: the commands that match, in their original order. */
  function Filter(cmds: seq<Command>, searchTerm: string, selectedCategory: string): (r: seq<Command>)
    ensures forall c :: c in r ==> c in cmds && Matches(c, searchTerm, selectedCategory)
  {
    if cmds == [] then []
    else if Matches(cmds[0], searchTerm, selectedCategory) then [cmds[0]] + Filter(cmds[1..], searchTerm, selectedCategory)
    else Filter(cmds[1..], searchTerm, selectedCategory)
  }

  /** `a` is `b` with some elements dropped and the rest kept in order. */
  ghost predicate IsSubsequence<T>(a: seq<T>, b: seq<T>)
    decreases |b|
  {
    a == [] || (b != [] && ((a[0] == b[0] && IsSubsequence(a[1..], b[1..])) || IsSubsequence(a, b[1..])))
  }

  lemma {:induction false} SubsequenceLength<T>(a: seq<T>, b: seq<T>)
    requires IsSubsequence(a, b)
    ensures |a| <= |b|
    decreases |b|
  {
    if a != [] {
      if a[0] == b[0] && IsSubsequence(a[1..], b[1..]) {
        SubsequenceLength(a[1..], b[1..]);
      } else {
        SubsequenceLength(a, b[1..]);
      }
    }
  }

  /** Every command that matches is kept. */
  lemma {:induction false} FilterComplete(cmds: seq<Command>, searchTerm: string, selectedCategory: string, c: Command)
    requires c in cmds && Matches(c, searchTerm, selectedCategory)
    ensures c in Filter(cmds, searchTerm, selectedCategory)
  {
    if c != cmds[0] {
      FilterComplete(cmds[1..], searchTerm, selectedCategory, c);
    }
  }

  /** The filtered list keeps the original order. */
  lemma {:induction false} FilterSubsequence(cmds: seq<Command>, searchTerm: string, selectedCategory: string)
    ensures IsSubsequence(Filter(cmds, searchTerm, selectedCategory), cmds)
  {
    if cmds != [] {
      FilterSubsequence(cmds[1..], searchTerm, selectedCategory);
    }
  }

  /** Each command is kept as often as it occurs in the input when it matches, and never otherwise. */
  lemma {:induction false} FilterCount(cmds: seq<Command>, searchTerm: string, selectedCategory: string, c: Command)
    ensures multiset(Filter(cmds, searchTerm, selectedCategory))[c]
         == if Matches(c, searchTerm, selectedCategory) then multiset(cmds)[c] else 0
  {
    if cmds != [] {
      FilterCount(cmds[1..], searchTerm, selectedCategory, c);
      assert cmds == [cmds[0]] + cmds[1..];
      assert multiset(cmds) == multiset([cmds[0]]) + multiset(cmds[1..]);
    }
  }

  /** At most the eight commands of the page are ever shown. */
  lemma FilteredAtMostEight(searchTerm: string, selectedCategory: string)
    ensures |Filter(AllCommands, searchTerm, selectedCategory)| <= 8
  {
    FilterSubsequence(AllCommands, searchTerm, selectedCategory);
    SubsequenceLength(Filter(AllCommands, searchTerm, selectedCategory), AllCommands);
  }

  /** With an empty search and the "all" tab, nothing is filtered out. */
  lemma {:induction false} FilterEmptySearchAll(cmds: seq<Command>)
    ensures Filter(cmds, "", All) == cmds
  {
    if cmds != [] {
      assert Lower("") == "";
      assert "" <= Lower(cmds[0].command);
      FilterEmptySearchAll(cmds[1..]);
    }
  }

  /** Search terms that only differ in letter case give the same list. */
  lemma {:induction false} FilterIgnoresCase(cmds: seq<Command>, term1: string, term2: string, selectedCategory: string)
    requires SameIgnoringCase(term1, term2)
    ensures Filter(cmds, term1, selectedCategory) == Filter(cmds, term2, selectedCategory)
  {
    SameIgnoringCaseLower(term1, term2);
    if cmds != [] {
      FilterIgnoresCase(cmds[1..], term1, term2, selectedCategory);
    }
  }

  /** Filtering the filtered list again changes nothing. */
  lemma {:induction false} FilterIdempotent(cmds: seq<Command>, searchTerm: string, selectedCategory: string)
    ensures Filter(Filter(cmds, searchTerm, selectedCategory), searchTerm, selectedCategory)
         == Filter(cmds, searchTerm, selectedCategory)
  {
    if cmds != [] {
      FilterIdempotent(cmds[1..], searchTerm, selectedCategory);
    }
  }

  /** The list is empty exactly when no command matches. */
  lemma FilterEmptyIff(cmds: seq<Command>, searchTerm: string, selectedCategory: string)
    ensures Filter(cmds, searchTerm, selectedCategory) == []
        <==> forall c :: c in cmds ==> !Matches(c, searchTerm, selectedCategory)
  {
    forall c | c in cmds && Matches(c, searchTerm, selectedCategory)
      ensures c in Filter(cmds, searchTerm, selectedCategory)
    {
      FilterComplete(cmds, searchTerm, selectedCategory, c);
    }
  }

  /** A tab no command belongs to shows nothing, whatever the search. */
  lemma EmptyCategoryShowsNothing(cmds: seq<Command>, searchTerm: string, selectedCategory: string)
    requires selectedCategory != All
    requires forall c :: c in cmds ==> c.category != selectedCategory
    ensures Filter(cmds, searchTerm, selectedCategory) == []
  {
    FilterEmptyIff(cmds, searchTerm, selectedCategory);
  }

  /** Every command sits under one of the tabs other than "all". */
  lemma CategoriesAreTabs()
    ensures forall c :: c in AllCommands ==>
      exists i :: 1 <= i < |CommandCategories()| && CommandCategories()[i].id == c.category
  {
    var tabs := CommandCategories();
    forall c | c in AllCommands
      ensures exists i :: 1 <= i < |tabs| && tabs[i].id == c.category
    {
      if c.category == "pomodoro" { assert tabs[1].id == c.category; }
      else if c.category == "voice" { assert tabs[2].id == c.category; }
      else { assert tabs[3].id == c.category; }
    }
  }

  /** With an empty search, a command of the selected tab is always listed. */
  lemma {:induction false} EmptySearchKeepsCategory(cmds: seq<Command>, selectedCategory: string, c: Command)
    requires c in cmds && MatchesCategory(c, selectedCategory)
    ensures c in Filter(cmds, "", selectedCategory)
  {
    assert Lower("") == "";
    assert "" <= Lower(c.command);
    FilterComplete(cmds, "", selectedCategory, c);
  }

  /** With an empty search every tab lists at least one command. */
  lemma EveryTabListsSomething(tab: CategoryTab)
    requires tab in CommandCategories()
    ensures Filter(AllCommands, "", tab.id) != []
  {
    var k := if tab.id == "voice" then 6 else if tab.id == "general" then 7 else 0;
    assert MatchesCategory(AllCommands[k], tab.id);
    EmptySearchKeepsCategory(AllCommands, tab.id, AllCommands[k]);
  }

  /** The page opens showing every command. */
  lemma InitialListIsEverything()
    ensures Filter(AllCommands, "", All) == AllCommands
  {
    FilterEmptySearchAll(AllCommands);
  }

  const PomodoroColor: string := "bg-blue-100 text-blue-800"
  const VoiceColor: string := "bg-purple-100 text-purple-800"
  const GrayColor: string := "bg-gray-100 text-gray-800"

  /** `getCategoryColor`: the badge classes of a category; unknown ones are gray. */
  function CategoryColor(category: string): (r: string)
    ensures r in {PomodoroColor, VoiceColor, GrayColor}
    ensures r == PomodoroColor <==> category == "pomodoro"
    ensures r == VoiceColor <==> category == "voice"
    ensures r == GrayColor <==> category != "pomodoro" && category != "voice"
  {
    match category
    case "pomodoro" => PomodoroColor
    case "voice" => VoiceColor
    case "general" => GrayColor
    case _ => GrayColor
  }

  /** The state of the page: the text in the search box and the selected tab. */
  class CommandsPage {
    var searchTerm: string
    var selectedCategory: string

    /** The page opens with an empty search on the "all" tab. */
    constructor ()
      ensures searchTerm == "" && selectedCategory == All
    {
      searchTerm := "";
      selectedCategory := All;
    }

    /** The list the page renders. */
    function FilteredCommands(): (r: seq<Command>)
      reads this
      ensures forall c :: c in r ==> c in AllCommands && Matches(c, searchTerm, selectedCategory)
      ensures forall c :: c in AllCommands && Matches(c, searchTerm, selectedCategory) ==> c in r
      ensures |r| <= |AllCommands|
    {
      FilteredAtMostEight(searchTerm, selectedCategory);
      forall c | c in AllCommands && Matches(c, searchTerm, selectedCategory)
        ensures c in Filter(AllCommands, searchTerm, selectedCategory)
      {
        FilterComplete(AllCommands, searchTerm, selectedCategory, c);
      }
      Filter(AllCommands, searchTerm, selectedCategory)
    }

    /** The "No commands found" notice is shown. */
    predicate ShowsNoCommandsFound()
      reads this
      ensures ShowsNoCommandsFound() <==> forall c :: c in AllCommands ==> !Matches(c, searchTerm, selectedCategory)
    {
      FilterEmptyIff(AllCommands, searchTerm, selectedCategory);
      |FilteredCommands()| == 0
    }

    /** Typing in the search box replaces the search text. */
    method SetSearchTerm(value: string)
      modifies this
      ensures searchTerm == value && selectedCategory == old(selectedCategory)
    {
      searchTerm := value;
    }

    /** Clicking a tab selects its category. */
    method SetSelectedCategory(id: string)
      modifies this
      ensures selectedCategory == id && searchTerm == old(searchTerm)
    {
      selectedCategory := id;
    }
  }
}

/**
 * The main window of the GUI (gui/main_window.py): the sidebar navigation
 * with its page cache, the "Update Kali Tools" menu action, and the one page
 * callback whose code is present, `ScanningPage.run_nmap`, which turns the
 * Nmap form's values into a command line for the terminal panel.
 */
module MainWindow {
  import opened Wrappers
  import Strings
  import Terminal

  /** The keys of the sidebar's navigation buttons, in the order they are created. */
  const NavKeys: seq<string> := ["overview", "recon", "scan", "wireless", "exploit", "forensics"]

  /** The page classes `create_tool_page` picks; `Placeholder` stands for its `QWidget` fallback for an unknown category. */
  datatype PageKind = Reconnaissance | Scanning | Wireless | Exploitation | Forensics | Placeholder

  /** `create_tool_page(category)`: the page class registered for a category. */
  function CreateToolPage(category: string): PageKind
  {
    if category == "recon" then Reconnaissance
    else if category == "scan" then Scanning
    else if category == "wireless" then Wireless
    else if category == "exploit" then Exploitation
    else if category == "forensics" then Forensics
    else Placeholder
  }

  /**
   * Every registered category has its own page class, and every other
   * category (including `overview`, which `navigate_to` never passes on)
   * gets the placeholder.
   */
  lemma CreateToolPageCases(c: string, d: string)
    ensures CreateToolPage(c) == Placeholder <==> c !in {"recon", "scan", "wireless", "exploit", "forensics"}
    ensures CreateToolPage(c) != Placeholder && CreateToolPage(c) == CreateToolPage(d) ==> c == d
  {
  }

  /** A widget of the workspace stack: the overview page, or the page made for a category. */
  datatype Page = OverviewPage | ToolPage(category: string, kind: PageKind)

  /**
   * After the button loop of `navigate_to(c)` sets every flag to `key == c`,
   * exactly one button is checked when `c` is a sidebar key, and none
   * otherwise.
   */
  lemma NavSelectionExclusive(flags: seq<bool>, c: string)
    requires |flags| == |NavKeys|
    requires forall j :: 0 <= j < |NavKeys| ==> flags[j] == (NavKeys[j] == c)
    ensures c in NavKeys ==> exists j :: 0 <= j < |flags| && flags[j] && forall k :: 0 <= k < |flags| && flags[k] ==> k == j
    ensures c !in NavKeys ==> forall j :: 0 <= j < |flags| ==> !flags[j]
  {
    // the keys already differ in their first letter
    assert forall j :: 0 <= j < |NavKeys| ==> |NavKeys[j]| > 0 && NavKeys[j][0] == "orswef"[j];
    if c in NavKeys {
      var j :| 0 <= j < |NavKeys| && NavKeys[j] == c;
      assert flags[j];
      forall k | 0 <= k < |flags| && flags[k] ensures k == j {
        assert NavKeys[k][0] == NavKeys[j][0];
      }
    }
  }

  /**
   * The stack holds the overview page first and then exactly the cached
   * pages, each once; every cached page is the one made for its category.
   */
  ghost predicate PagesConsistent(toolPages: map<string, Page>, workspace: seq<Page>)
  {
    && |workspace| >= 1 && workspace[0] == OverviewPage
    && (forall c :: c in toolPages ==> toolPages[c] == ToolPage(c, CreateToolPage(c)) && toolPages[c] in workspace)
    && (forall i :: 1 <= i < |workspace| ==> workspace[i].ToolPage? && workspace[i].category in toolPages)
    && (forall i, j :: 0 <= i < j < |workspace| ==> workspace[i] != workspace[j])
  }

  /**
   * Creating the page of a category that is not cached yet, caching it and
   * adding it to the stack keeps every cached page in the stack exactly once.
   */
  lemma CachePage(toolPages: map<string, Page>, workspace: seq<Page>, c: string)
    requires PagesConsistent(toolPages, workspace) && c !in toolPages
    ensures var page := ToolPage(c, CreateToolPage(c));
      PagesConsistent(toolPages[c := page], workspace + [page])
  {
    var page := ToolPage(c, CreateToolPage(c));
    var ws := workspace + [page];
    forall i, j | 0 <= i < j < |ws| ensures ws[i] != ws[j] {
      if j == |workspace| && i >= 1 {
        assert workspace[i].category in toolPages;
      }
    }
  }

  class CyberGuardMainWindow {
    /** The checked flag of each navigation button, parallel to `NavKeys`. */
    var checked: seq<bool>
    /** `tool_pages`: the page created for each category visited so far. */
    var toolPages: map<string, Page>
    /** The widgets of the `workspace` stack, in the order they were added. */
    var workspace: seq<Page>
    /** The workspace's current widget. */
    var current: Page
    const terminal: Terminal.TerminalWidget

    ghost predicate Valid()
      reads this
    {
      |checked| == |NavKeys| && PagesConsistent(toolPages, workspace) && current in workspace
    }

    /** `setup_ui`/`create_sidebar`: no button checked, no tool page yet, the overview showing. */
    constructor ()
      ensures Valid() && fresh(terminal)
      ensures checked == seq(|NavKeys|, _ => false)
      ensures toolPages == map[] && workspace == [OverviewPage] && current == OverviewPage
      ensures terminal.State() == Terminal.PanelState([], Terminal.Idle, false, None, [], [])
      ensures terminal.queue == [] && terminal.quickInput == ""
    {
      checked := seq(|NavKeys|, _ => false);
      toolPages := map[];
      workspace := [OverviewPage];
      current := OverviewPage;
      terminal := new Terminal.TerminalWidget();
    }

    /**
     * `navigate_to(category)`: check exactly the button of `category`; show
     * the overview for `overview`; otherwise create and add the category's
     * page unless it is cached, and show the cached page.
     */
    method NavigateTo(category: string)
      requires Valid()
      modifies this
      ensures Valid()
      ensures |checked| == |NavKeys| && forall j :: 0 <= j < |NavKeys| ==> checked[j] == (NavKeys[j] == category)
      ensures category == "overview" ==>
        current == OverviewPage && toolPages == old(toolPages) && workspace == old(workspace)
      ensures category != "overview" ==>
        && current == ToolPage(category, CreateToolPage(category))
        && toolPages == old(toolPages)[category := current]
        && workspace == if category in old(toolPages) then old(workspace) else old(workspace) + [current]
    {
      var i := 0;
      while i < |NavKeys|
        invariant 0 <= i <= |NavKeys| && |checked| == |NavKeys|
        invariant forall j :: 0 <= j < i ==> checked[j] == (NavKeys[j] == category)
        invariant toolPages == old(toolPages) && workspace == old(workspace) && current == old(current)
      {
        checked := checked[i := NavKeys[i] == category];
        i := i + 1;
      }
      if category == "overview" {
        current := OverviewPage;
        return;
      }
      if category !in toolPages {
        CachePage(toolPages, workspace, category);
        var page := ToolPage(category, CreateToolPage(category));
        toolPages := toolPages[category := page];
        workspace := workspace + [page];
      }
      current := toolPages[category];
    }

    /** `update_kali_tools`: run the apt upgrade command in the terminal panel. */
    method UpdateKaliTools()
      modifies terminal
      ensures terminal.State() == Terminal.Echo(old(terminal.State()), "sudo apt update && sudo apt upgrade -y")
      ensures terminal.queue == old(terminal.queue)
    {
      terminal.ExecuteCommand("sudo apt update && sudo apt upgrade -y");
    }
  }

  /** The values of the Nmap form that `run_nmap` reads. */
  datatype NmapParams = NmapParams(target: string, scanType: string, ports: string, timing: string, saveOutput: bool)

  /** The `scan_types` table, with `''` for an unknown choice. */
  function ScanTypeFlag(scanType: string): string
  {
    if scanType == "Quick Scan (-F)" then "-F"
    else if scanType == "Intense Scan (-A)" then "-A"
    else if scanType == "Intense Scan + UDP (-sS -sU -A)" then "-sS -sU -A"
    else if scanType == "Quick Scan Plus (-sV -T4 -O -F --version-light)" then "-sV -T4 -O -F --version-light"
    else if scanType == "Ping Scan (-sn)" then "-sn"
    else ""
  }

  /** Exactly `Regular Scan` and the choices outside the table contribute the empty token. */
  lemma ScanTypeFlagEmpty(scanType: string)
    ensures ScanTypeFlag(scanType) == "" <==>
      scanType == "Regular Scan" ||
      scanType !in {"Quick Scan (-F)", "Intense Scan (-A)", "Intense Scan + UDP (-sS -sU -A)",
                    "Quick Scan Plus (-sV -T4 -O -F --version-light)", "Ping Scan (-sn)"}
  {
  }

  /** The `-oX` file name: the target with every `/` made `_`. */
  function OutputFile(target: string): string
  {
    "nmap_" + Strings.ReplaceChar(target, '/', '_') + ".xml"
  }

  lemma OutputFileSpec(target: string)
    ensures '/' !in OutputFile(target)
    ensures |OutputFile(target)| == |target| + 9
    ensures forall i :: 0 <= i < |target| && target[i] != '/' ==> OutputFile(target)[5 + i] == target[i]
    ensures forall i :: 0 <= i < |target| && target[i] == '/' ==> OutputFile(target)[5 + i] == '_'
  {
    Strings.ReplaceCharRemoves(target, '/', '_');
    assert forall i :: 0 <= i < |target| ==> OutputFile(target)[5 + i] == Strings.ReplaceChar(target, '/', '_')[i];
  }

  /** The timing choices of the Nmap form have the shape `T<n> (<name>)`. */
  function TimingChoice(d: char, name: string): string
  {
    ['T', d, ' '] + name
  }

  /** nmap's timing template options `-T0` to `-T5`. */
  predicate IsTimingTemplate(flag: string)
  {
    |flag| == 3 && flag[0] == '-' && flag[1] == 'T' && '0' <= flag[2] <= '5'
  }

  /**
   * The timing flag as `run_nmap` writes it: `-` and the lower-cased first
   * word of the timing choice, or `None` where `split()[0]` raises.
   */
  function TimingFlagAsWritten(timing: string): Option<string>
  {
    match Strings.FirstWord(timing)
    case None => None
    case Some(w) => Some("-" + Strings.Lower(w))
  }

  /**
   * The timing flag as nmap reads it, evidently what the code means: `-` and
   * the first word of the timing choice, or `None` where `split()[0]` raises.
   */
  function TimingFlagIntended(timing: string): Option<string>
  {
    match Strings.FirstWord(timing)
    case None => None
    case Some(w) => Some("-" + w)
  }

  /** The first word of a timing choice `T<n> (<name>)` is `T<n>`. */
  lemma TimingChoiceWord(d: char, name: string)
    requires '0' <= d <= '9'
    ensures Strings.FirstWord(TimingChoice(d, name)) == Some(['T', d])
  {
    var s := TimingChoice(d, name);
    assert Strings.LeadingSpace(s) == 0;
    assert s[0..] == s;
    assert s[1..][0] == d;
    assert s[1..][1..] == s[2..] && s[2..][0] == ' ';
    assert Strings.WordLength(s[2..]) == 0;
    assert Strings.WordLength(s) == 2;
    assert s[..2] == ['T', d];
  }

  /** The lower-casing turns every timing choice into `-t<n>`, which is not a timing template. */
  lemma TimingFlagAsWrittenNotTemplate(d: char, name: string)
    requires '0' <= d <= '5'
    ensures TimingFlagAsWritten(TimingChoice(d, name)) == Some(['-', 't', d])
    ensures !IsTimingTemplate(TimingFlagAsWritten(TimingChoice(d, name)).value)
  {
    TimingChoiceWord(d, name);
    assert Strings.Lower(['T', d]) == ['t', d];
    assert "-" + ['t', d] == ['-', 't', d];
  }

  /** Without the lower-casing, every timing choice `T<n> (<name>)` gives the template `-T<n>`. */
  lemma TimingFlagTemplate(d: char, name: string)
    requires '0' <= d <= '5'
    ensures TimingFlagIntended(TimingChoice(d, name)) == Some(['-', 'T', d])
    ensures IsTimingTemplate(TimingFlagIntended(TimingChoice(d, name)).value)
  {
    TimingChoiceWord(d, name);
    assert "-" + ['T', d] == ['-', 'T', d];
  }

  /** The choice `T4 (Aggressive)` gives `-t4` as written and `-T4` as nmap expects. */
  lemma TimingFlagExample()
    ensures TimingFlagAsWritten("T4 (Aggressive)") == Some("-t4")
    ensures TimingFlagIntended("T4 (Aggressive)") == Some("-T4")
  {
    assert "T4 (Aggressive)" == TimingChoice('4', "(Aggressive)");
    TimingFlagAsWrittenNotTemplate('4', "(Aggressive)");
    TimingFlagTemplate('4', "(Aggressive)");
  }

  /** `[s]` for a non-empty token, and nothing for the empty one. */
  function Present(s: string): seq<string>
  {
    if s == "" then [] else [s]
  }

  function PortsPart(p: NmapParams): seq<string>
  {
    if p.ports != "" then ["-p", p.ports] else []
  }

  /** The timing part of `cmd` as `run_nmap` builds it, or `None` when building it raises. */
  function TimingPart(p: NmapParams): Option<seq<string>>
  {
    if p.timing == "" then Some([])
    else match TimingFlagAsWritten(p.timing)
      case None => None
      case Some(flag) => Some([flag])
  }

  /** The timing part with the intended `-T<n>` flag. */
  function TimingPartIntended(p: NmapParams): Option<seq<string>>
  {
    if p.timing == "" then Some([])
    else match TimingFlagIntended(p.timing)
      case None => None
      case Some(flag) => Some([flag])
  }

  function OutputPart(p: NmapParams): seq<string>
  {
    if p.saveOutput then ["-oX", OutputFile(p.target)] else []
  }

  /** The list `cmd` for a given timing part, before `filter(None, ...)`. */
  function ArgsWith(p: NmapParams, timing: seq<string>): seq<string>
  {
    ["nmap", ScanTypeFlag(p.scanType)] + PortsPart(p) + timing + [p.target] + OutputPart(p)
  }

  /** The list `cmd` that `run_nmap` builds, before `filter(None, ...)`. */
  function NmapArgs(p: NmapParams): Option<seq<string>>
  {
    match TimingPart(p)
    case None => None
    case Some(timing) => Some(ArgsWith(p, timing))
  }

  /** The command line `run_nmap` passes to `execute_command`, or `None` where it raises. */
  function NmapCommand(p: NmapParams): Option<string>
  {
    match NmapArgs(p)
    case None => None
    case Some(args) => Some(Strings.Join(" ", Strings.DropEmpty(args)))
  }

  /** The list `cmd` with the intended timing flag. */
  function NmapArgsIntended(p: NmapParams): Option<seq<string>>
  {
    match TimingPartIntended(p)
    case None => None
    case Some(timing) => Some(ArgsWith(p, timing))
  }

  /** The command line with the intended timing flag. */
  function NmapCommandIntended(p: NmapParams): Option<string>
  {
    match NmapArgsIntended(p)
    case None => None
    case Some(args) => Some(Strings.Join(" ", Strings.DropEmpty(args)))
  }

  /**
   * Building the command fails exactly where `split()[0]` raises: for a
   * timing choice that is non-empty but all whitespace. The intended
   * command fails for the same inputs.
   */
  lemma NmapFailsOnlyOnBlankTiming(p: NmapParams)
    ensures NmapCommand(p).None? <==> p.timing != "" && Strings.AllSpace(p.timing)
    ensures NmapCommandIntended(p).None? <==> p.timing != "" && Strings.AllSpace(p.timing)
  {
    Strings.FirstWordSpec(p.timing);
  }

  /** Without a timing choice the intended command is the one `run_nmap` builds. */
  lemma NmapIntendedWithoutTiming(p: NmapParams)
    requires p.timing == ""
    ensures NmapArgs(p) == NmapArgsIntended(p) && NmapCommand(p) == NmapCommandIntended(p)
  {
  }

  /**
   * The intended command differs from the one `run_nmap` builds only in the
   * timing token: both fail alike, and otherwise the token lists agree
   * except at the timing token, which the code writes as the intended one
   * with everything after its `-` lower-cased.
   */
  lemma NmapIntendedDiffers(p: NmapParams)
    ensures NmapArgs(p).Some? <==> NmapArgsIntended(p).Some?
    ensures NmapArgs(p).Some? && p.timing != "" ==>
      var a, b, k := NmapArgs(p).value, NmapArgsIntended(p).value, 2 + |PortsPart(p)|;
      && |a| == |b| && k < |a|
      && a[k] == "-" + Strings.Lower(b[k][1..])
      && a[k] == TimingFlagAsWritten(p.timing).value && b[k] == TimingFlagIntended(p.timing).value
      && (forall j :: 0 <= j < |a| && j != k ==> a[j] == b[j])
  {
    if NmapArgs(p).Some? && p.timing != "" {
      var w := Strings.FirstWord(p.timing).value;
      assert TimingPart(p) == Some(["-" + Strings.Lower(w)]);
      assert TimingPartIntended(p) == Some(["-" + w]);
      OneTokenApart(["nmap", ScanTypeFlag(p.scanType)] + PortsPart(p), p.target, OutputPart(p), w);
    }
  }

  /** Two lists that differ in one token, the intended flag and its lower-cased form. */
  lemma OneTokenApart(front: seq<string>, target: string, out: seq<string>, w: string)
    ensures var a, b, k := front + ["-" + Strings.Lower(w)] + [target] + out, front + ["-" + w] + [target] + out, |front|;
      && |a| == |b| && k < |a|
      && a[k] == "-" + Strings.Lower(b[k][1..])
      && (forall j :: 0 <= j < |a| && j != k ==> a[j] == b[j])
  {
    var y := "-" + w;
    assert y[1..] == w;
  }

  /**
   * The tokens that reach the join for a timing part without empty tokens:
   * `nmap`, the scan flag unless empty, then `-p <ports>` iff ports were
   * given, then the timing part, then the target unless empty, then
   * `-oX <file>` iff the output is saved.
   */
  lemma TokensLayout(p: NmapParams, timing: seq<string>)
    requires forall i :: 0 <= i < |timing| ==> timing[i] != ""
    ensures Strings.DropEmpty(ArgsWith(p, timing)) ==
      ["nmap"] + Present(ScanTypeFlag(p.scanType)) + PortsPart(p) + timing + Present(p.target) + OutputPart(p)
  {
    var flag := ScanTypeFlag(p.scanType);
    var ports, out := PortsPart(p), OutputPart(p);
    DropEmptyPart(["nmap", flag], ports, timing, [p.target], out);
    DropEmptyHead(flag);
    DropEmptyOne(p.target);
    Strings.DropEmptyNonEmpty(ports);
    Strings.DropEmptyNonEmpty(timing);
    Strings.DropEmptyNonEmpty(out);
  }

  /**
   * The tokens of `run_nmap`'s command: `nmap`, the scan flag unless empty,
   * then `-p <ports>` iff ports were given, then the timing flag as written
   * iff a timing was chosen, then the target unless empty, then
   * `-oX <file>` iff the output is saved.
   */
  lemma NmapTokensLayout(p: NmapParams)
    requires NmapArgs(p).Some?
    ensures Strings.DropEmpty(NmapArgs(p).value) ==
      ["nmap"] + Present(ScanTypeFlag(p.scanType)) + PortsPart(p) + TimingPart(p).value +
      Present(p.target) + OutputPart(p)
  {
    TokensLayout(p, TimingPart(p).value);
  }

  /** The same layout for the intended command, with the `-T<n>` timing flag. */
  lemma NmapIntendedTokensLayout(p: NmapParams)
    requires NmapArgsIntended(p).Some?
    ensures Strings.DropEmpty(NmapArgsIntended(p).value) ==
      ["nmap"] + Present(ScanTypeFlag(p.scanType)) + PortsPart(p) + TimingPartIntended(p).value +
      Present(p.target) + OutputPart(p)
  {
    TokensLayout(p, TimingPartIntended(p).value);
  }

  lemma DropEmptyHead(flag: string)
    ensures Strings.DropEmpty(["nmap", flag]) == ["nmap"] + Present(flag)
  {
    assert ["nmap", flag][1..] == [flag];
    DropEmptyOne(flag);
  }

  lemma DropEmptyOne(s: string)
    ensures Strings.DropEmpty([s]) == Present(s)
  {
    assert [s][1..] == [];
  }

  lemma DropEmptyPart(a: seq<string>, b: seq<string>, c: seq<string>, d: seq<string>, e: seq<string>)
    ensures Strings.DropEmpty(a + b + c + d + e) ==
      Strings.DropEmpty(a) + Strings.DropEmpty(b) + Strings.DropEmpty(c) + Strings.DropEmpty(d) + Strings.DropEmpty(e)
  {
    Strings.DropEmptyAppend(a + b + c + d, e);
    Strings.DropEmptyAppend(a + b + c, d);
    Strings.DropEmptyAppend(a + b, c);
    Strings.DropEmptyAppend(a, b);
  }

  /**
   * The final token list starts with `nmap`, has no empty token, and ends
   * with the target followed by the `-oX` part when saving, so the target
   * comes after every other flag.
   */
  lemma NmapTokensOrder(p: NmapParams)
    requires NmapArgs(p).Some?
    ensures var t := Strings.DropEmpty(NmapArgs(p).value);
      && |t| >= 1 && t[0] == "nmap"
      && (forall k :: 0 <= k < |t| ==> t[k] != "")
      && |t| >= 1 + |OutputPart(p)|
      && t[|t| - |OutputPart(p)|..] == OutputPart(p)
      && (p.target != "" ==> t[|t| - |OutputPart(p)| - 1] == p.target)
  {
    NmapTokensLayout(p);
  }

  /** A quick scan of one host with aggressive timing, saving XML: `run_nmap` joins these six tokens. */
  lemma NmapCommandExample()
    ensures NmapCommand(NmapParams("scanme.nmap.org", "Quick Scan (-F)", "", "T4 (Aggressive)", true)) ==
      Some(Strings.Join(" ", ["nmap", "-F", "-t4", "scanme.nmap.org", "-oX", "nmap_scanme.nmap.org.xml"]))
  {
    var p := NmapParams("scanme.nmap.org", "Quick Scan (-F)", "", "T4 (Aggressive)", true);
    assert ScanTypeFlag(p.scanType) == "-F";
    assert PortsPart(p) == [];
    AggressiveTiming(p);
    HostOutput(p);
    NmapTokensLayout(p);
    SixTokens("nmap", "-F", "-t4", p.target, "-oX", "nmap_scanme.nmap.org.xml");
  }

  /** The same scan with the intended timing flag passes `-T4` instead. */
  lemma NmapCommandIntendedExample()
    ensures NmapCommandIntended(NmapParams("scanme.nmap.org", "Quick Scan (-F)", "", "T4 (Aggressive)", true)) ==
      Some(Strings.Join(" ", ["nmap", "-F", "-T4", "scanme.nmap.org", "-oX", "nmap_scanme.nmap.org.xml"]))
  {
    var p := NmapParams("scanme.nmap.org", "Quick Scan (-F)", "", "T4 (Aggressive)", true);
    assert ScanTypeFlag(p.scanType) == "-F";
    assert PortsPart(p) == [];
    AggressiveTiming(p);
    HostOutput(p);
    NmapIntendedTokensLayout(p);
    SixTokens("nmap", "-F", "-T4", p.target, "-oX", "nmap_scanme.nmap.org.xml");
  }

  lemma AggressiveTiming(p: NmapParams)
    requires p.timing == "T4 (Aggressive)"
    ensures TimingPart(p) == Some(["-t4"]) && TimingPartIntended(p) == Some(["-T4"])
  {
    TimingFlagExample();
  }

  lemma HostOutput(p: NmapParams)
    requires p.saveOutput && p.target == "scanme.nmap.org"
    ensures OutputPart(p) == ["-oX", "nmap_scanme.nmap.org.xml"]
  {
    HostFile(p.target);
  }

  lemma HostFile(t: string)
    requires t == "scanme.nmap.org"
    ensures OutputFile(t) == "nmap_" + t + ".xml"
    ensures "nmap_" + t + ".xml" == "nmap_scanme.nmap.org.xml"
  {
    OutputFileNoSlash(t);
  }

  /** A target without `/` appears in the file name as it is. */
  lemma OutputFileNoSlash(target: string)
    requires '/' !in target
    ensures OutputFile(target) == "nmap_" + target + ".xml"
  {
    Strings.ReplaceCharAbsent(target, '/', '_');
  }

  lemma SixTokens(a: string, b: string, c: string, d: string, e: string, f: string)
    requires b != "" && d != ""
    ensures [a] + Present(b) + [] + [c] + Present(d) + [e, f] == [a, b, c, d, e, f]
  {
  }

  /** A subnet target keeps its slash in the target token but not in the file name; `Regular Scan` adds no token. */
  lemma NmapSubnetExample()
    ensures NmapCommand(NmapParams("10.0.0.0/24", "Regular Scan", "22", "", true)) ==
      Some(Strings.Join(" ", ["nmap", "-p", "22", "10.0.0.0/24", "-oX", "nmap_10.0.0.0_24.xml"]))
  {
    var p := NmapParams("10.0.0.0/24", "Regular Scan", "22", "", true);
    assert ScanTypeFlag(p.scanType) == "";
    assert PortsPart(p) == ["-p", "22"];
    assert TimingPart(p) == Some([]);
    SubnetOutput(p);
    NmapTokensLayout(p);
    SixTokensNoFlag("nmap", "-p", "22", p.target, "-oX", "nmap_10.0.0.0_24.xml");
  }

  lemma SixTokensNoFlag(a: string, b: string, c: string, d: string, e: string, f: string)
    requires d != ""
    ensures [a] + Present("") + [b, c] + [] + Present(d) + [e, f] == [a, b, c, d, e, f]
  {
  }

  lemma SubnetOutput(p: NmapParams)
    requires p.saveOutput && p.target == "10.0.0.0/24"
    ensures OutputPart(p) == ["-oX", "nmap_10.0.0.0_24.xml"]
  {
    assert Strings.ReplaceChar(p.target, '/', '_') == "10.0.0.0_24";
    assert "nmap_" + "10.0.0.0_24" + ".xml" == "nmap_10.0.0.0_24.xml";
  }

  /** The Network Scanning page. */
  class ScanningPage {
    const terminal: Terminal.TerminalWidget

    constructor (terminal: Terminal.TerminalWidget)
      ensures this.terminal == terminal
    {
      this.terminal := terminal;
    }

    /**
     * The command string `run_nmap` builds: `cmd` grown by appends, then
     * empty tokens dropped and the rest joined with spaces; `None` where
     * `split()[0]` raises.
     */
    static method BuildNmapCommand(p: NmapParams) returns (r: Option<string>)
      ensures r == NmapCommand(p)
    {
      var cmd := ["nmap"];
      cmd := cmd + [ScanTypeFlag(p.scanType)];
      if p.ports != "" {
        cmd := cmd + ["-p", p.ports];
      }
      assert cmd == ["nmap", ScanTypeFlag(p.scanType)] + PortsPart(p);
      if p.timing != "" {
        var word := Strings.FirstWord(p.timing);
        if word.None? {
          return None;
        }
        cmd := cmd + ["-" + Strings.Lower(word.value)];
      }
      assert cmd == ["nmap", ScanTypeFlag(p.scanType)] + PortsPart(p) + TimingPart(p).value;
      cmd := cmd + [p.target];
      if p.saveOutput {
        cmd := cmd + ["-oX", "nmap_" + Strings.ReplaceChar(p.target, '/', '_') + ".xml"];
      }
      assert cmd == NmapArgs(p).value;
      return Some(Strings.Join(" ", Strings.DropEmpty(cmd)));
    }

    /** `run_nmap(params)`: execute the built command in the terminal panel. */
    method RunNmap(p: NmapParams)
      modifies terminal
      ensures NmapCommand(p).Some? ==> terminal.State() == Terminal.Echo(old(terminal.State()), NmapCommand(p).value)
      ensures NmapCommand(p).None? ==> terminal.State() == old(terminal.State())
      ensures terminal.queue == old(terminal.queue)
    {
      var command := BuildNmapCommand(p);
      if command.Some? {
        terminal.ExecuteCommand(command.value);
      }
    }
  }
}

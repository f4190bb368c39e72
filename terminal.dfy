/** The terminal (apps/Terminal.tsx): a log of command, output and error
    entries, the line being typed, and a busy flag while a command runs.

    The assistant behind `ask` is an input (`Env`): whether a key is
    configured and what the assistant answers, or throws, for a query. */
module TerminalApp {
  import opened Types
  import Shell

  datatype EntryType = CommandEntry | OutputEntry | ErrorEntry

  datatype LogEntry = LogEntry(kind: EntryType, content: string)

  datatype TermState = TermState(input: string, history: seq<LogEntry>, isProcessing: bool)

  /** The two translated lines of the banner (`termWelcome`, `termHelp`). */
  datatype Texts = Texts(welcome: string, help: string)

  /** What the assistant does with a query: answers (an absent text reads
      as empty), or throws, with an `Error` message or something else. */
  datatype AskOutcome = Answer(text: string) | Raised(message: Option<string>)

  datatype Env = Env(apiKeyConfigured: bool, ask: string -> AskOutcome)

  function Output(content: string): LogEntry { LogEntry(OutputEntry, content) }

  function Error(content: string): LogEntry { LogEntry(ErrorEntry, content) }

  /** The log the component is created with. */
  function InitialHistory(t: Texts): seq<LogEntry>
  {
    [Output(t.welcome), Output(" * Documentation:  https://help.ubuntu.com"),
     Output(" * Management:     https://landscape.canonical.com"), Output(" "), Output(t.help)]
  }

  /** The log the language effect writes, on mount and on every language change. */
  function LanguageHistory(t: Texts): seq<LogEntry>
  {
    [Output(t.welcome), Output(" * Documentation:  https://help.ubuntu.com"), Output(" "), Output(t.help)]
  }

  function InitialTerm(t: Texts): TermState
  {
    TermState("", InitialHistory(t), false)
  }

  // ---------------------------------------------------------------------
  // Text helpers: `toLowerCase`, `split(' ')`

  /** Lower-casing of the Latin capitals. */
  function LowerChar(c: char): char
  {
    if 'A' <= c <= 'Z' then (c as int + 32) as char else c
  }

  function ToLower(s: string): string
  {
    seq(|s|, i requires 0 <= i < |s| => LowerChar(s[i]))
  }

  /** `split(' ')`: the pieces between single spaces, empty pieces included. */
  function Split(s: string): (r: seq<string>)
    ensures |r| >= 1
    ensures forall k :: 0 <= k < |r| ==> ' ' !in r[k]
    decreases |s|
  {
    var i := IndexOf(s, ' ');
    if i < 0 then [s]
    else
      NoSpaceBefore(s, i);
      [s[..i]] + Split(s[i + 1..])
  }

  lemma NoSpaceBefore(s: string, i: int)
    requires 0 <= i <= |s| && forall j :: 0 <= j < i ==> s[j] != ' '
    ensures ' ' !in s[..i]
  {
    forall j | 0 <= j < i ensures s[..i][j] != ' ' {
    }
  }

  /** `join(' ')`, the inverse of `Split`. */
  function Join(parts: seq<string>): string
    requires |parts| >= 1
    decreases |parts|
  {
    if |parts| == 1 then parts[0] else parts[0] + " " + Join(parts[1..])
  }

  /** `substring(k)`. */
  function Substring(s: string, k: nat): string
  {
    if k <= |s| then s[k..] else ""
  }

  // ---------------------------------------------------------------------
  // Fixed replies

  /** The `help` listing, exactly as printed (a leading newline, trailing indentation). */
  const HelpText: string :=
    "\n" +
    "Available Commands:\n" +
    "  neofetch    Display system info and skills\n" +
    "  clear       Clear terminal screen\n" +
    "  whoami      Display current user\n" +
    "  youtube     Show channel info\n" +
    "  github      Show GitHub profile\n" +
    "  contact     Show contact details (Phone/Email)\n" +
    "  ask [query] Ask Hamza's AI Assistant (Powered by Gemini)\n" +
    "  exit        Close terminal\n" +
    "            "

  /** The `neofetch` banner, exactly as printed. */
  const NeofetchText: string :=
    "\n" +
    "            .-/+oossssoo+/-.               hamza@hamza-desktop\n" +
    "        ':+ssssssssssssssssss+:'           -------------------\n" +
    "      -+ssssssssssssssssssyyssss+-         OS: Ubuntu Hamza Edition 22.04\n" +
    "    .ossssssssssssssssssdMMMNysssso.       Host: Custom Rig\n" +
    "   /ssssssssssshdmmNNmmyNMMMMhssssss/      Kernel: 5.15.0-generic\n" +
    "  +ssssssssshmydMMMMMMMNddddyssssssss+     Uptime: 11 years\n" +
    " /sssssssshNMMMyhhyyyyhmNMMMNhssssssss/    Packages: 999 (dpkg)\n" +
    ".ssssssssdMMMNhssssssssssNMMMdssssssss.    Shell: zsh 5.8\n" +
    "+sssshhhyNMMNyssssssssssswMMMdssssssss+    Resolution: 1920x1080 (Full HD)\n" +
    "ossyNMMMNyMMhsssssssssssshmmmhssssssso     DE: GNOME\n" +
    "ossyNMMMNyMMhsssssssssssshmmmhssssssso     WM: Mutter\n" +
    "+sssshhhyNMMNyssssssssssswMMMdssssssss+    Theme: Yaru-dark [GTK2/3]\n" +
    ".ssssssssdMMMNhssssssssssNMMMdssssssss.    Icons: Yaru [GTK2/3]\n" +
    " /sssssssshNMMMyhhyyyyhmNMMMNhssssssss/    Terminal: gnome-terminal\n" +
    "  +ssssssssshmydMMMMMMMNddddyssssssss+     CPU: Intel Core i9 (Electronics Expert)\n" +
    "   /ssssssssssshdmmNNmmyNMMMMhssssss/      GPU: NVIDIA RTX 3080 (Windows/Linux Expert)\n" +
    "    .ossssssssssssssssssdMMMNysssso.       Memory: 32GiB / 64GiB\n" +
    "      -+ssssssssssssssssssyyssss+-\n" +
    "        ':+ssssssssssssssssss+:'\n" +
    "            .-/+oossssoo+/-.\n" +
    "            "

  const WhoamiText := "hamza_expert_11"
  const YoutubeText := "Channel: Hamza Full HD (@hamzaellakany-hf5kw)\nURL: https://youtube.com/@hamzaellakany-hf5kw?si=yCLTQX9O6_eXccyM"
  const GithubText := "GitHub: https://github.com/ellakanyhamza8-web"
  const ContactText := "Phone/WhatsApp: 01030722501\nEmail: ellakanyhamza8@gmail.com"
  const AskUsage := "Usage: ask [your question]"
  const NoApiKey := "Error: API Key not configured in environment."

  /** The fixed texts the commands print. The properties below hold for any
      such table; the terminal itself uses `Fixed`. */
  datatype Replies = Replies(help: string, whoami: string, youtube: string, github: string,
                             contact: string, neofetch: string, askUsage: string, noApiKey: string)

  const Fixed: Replies :=
    Replies(HelpText, WhoamiText, YoutubeText, GithubText, ContactText, NeofetchText, AskUsage, NoApiKey)

  function NotFound(command: string): string
  {
    "Command '" + command + "' not found. Type 'help' for list."
  }

  function ExecutionError(message: Option<string>): string
  {
    "Execution error: " + (if message.Some? then message.value else "Unknown error")
  }

  // ---------------------------------------------------------------------
  // `handleCommand`

  /** The dispatched word: the first space-separated piece of the lower-cased text. */
  function CommandOf(clean: string): string
  {
    Split(ToLower(clean))[0]
  }

  /** The words the `switch` knows, and everything else. */
  datatype Command =
    | HelpCmd | ClearCmd | ExitCmd | WhoamiCmd | YoutubeCmd | GithubCmd | ContactCmd
    | NeofetchCmd | AskCmd | OtherCmd

  const KnownWords: seq<string> :=
    ["help", "clear", "exit", "whoami", "youtube", "github", "contact", "neofetch", "ask"]

  function Classify(w: string): Command
  {
    if w == "help" then HelpCmd
    else if w == "clear" then ClearCmd
    else if w == "exit" then ExitCmd
    else if w == "whoami" then WhoamiCmd
    else if w == "youtube" then YoutubeCmd
    else if w == "github" then GithubCmd
    else if w == "contact" then ContactCmd
    else if w == "neofetch" then NeofetchCmd
    else if w == "ask" then AskCmd
    else OtherCmd
  }

  /** What a command does to the log after its own entry, or to the window. */
  datatype Effect = AppendEntry(entry: LogEntry) | ClearHistory | CloseWindow

  function Respond(r: Replies, clean: string, env: Env): Effect
  {
    var args := Split(ToLower(clean));
    var command := args[0];
    match Classify(command)
    case HelpCmd => AppendEntry(Output(r.help))
    case ClearCmd => ClearHistory
    case ExitCmd => CloseWindow
    case WhoamiCmd => AppendEntry(Output(r.whoami))
    case YoutubeCmd => AppendEntry(Output(r.youtube))
    case GithubCmd => AppendEntry(Output(r.github))
    case ContactCmd => AppendEntry(Output(r.contact))
    case NeofetchCmd => AppendEntry(Output(r.neofetch))
    case AskCmd =>
      if |args| < 2 then AppendEntry(Error(r.askUsage))
      else if !env.apiKeyConfigured then AppendEntry(Error(r.noApiKey))
      else
        (match env.ask(Substring(clean, 4))
         case Answer(text) => AppendEntry(Output(text))
         case Raised(message) => AppendEntry(Error(ExecutionError(message))))
    case OtherCmd => AppendEntry(Error(NotFound(command)))
  }

  /** The state after a command, and whether it asked the shell to close the window. */
  datatype Outcome = Outcome(state: TermState, closes: bool)

  function Submit(r: Replies, s: TermState, cmd: string, env: Env): Outcome
  {
    var clean := Trim(cmd);
    if clean == [] then Outcome(s, false)
    else Apply(s.history + [LogEntry(CommandEntry, clean)], Respond(r, clean, env))
  }

  /** The end of a non-blank command: the input cleared, not busy, the effect applied to the log. */
  function Apply(logged: seq<LogEntry>, e: Effect): Outcome
  {
    match e
    case AppendEntry(x) => Outcome(TermState("", logged + [x], false), false)
    case ClearHistory => Outcome(TermState("", [], false), false)
    case CloseWindow => Outcome(TermState("", logged, false), true)
  }

  // ---------------------------------------------------------------------
  // Properties of the text helpers

  /** Splitting at the spaces and joining with single spaces gives the text back. */
  lemma {:induction false} JoinSplit(s: string)
    ensures Join(Split(s)) == s
    decreases |s|
  {
    var i := IndexOf(s, ' ');
    if i >= 0 {
      JoinSplit(s[i + 1..]);
      SplitUnfold(s, i);
      JoinCons(s[..i], Split(s[i + 1..]));
      AroundSpace(s, i);
    }
  }

  lemma SplitUnfold(s: string, i: int)
    requires i == IndexOf(s, ' ') && i >= 0
    ensures Split(s) == [s[..i]] + Split(s[i + 1..])
  {
  }

  lemma AroundSpace(s: string, i: int)
    requires 0 <= i < |s| && s[i] == ' '
    ensures s == s[..i] + " " + s[i + 1..]
  {
    assert s == s[..i] + [s[i]] + s[i + 1..];
  }

  lemma JoinCons(head: string, rest: seq<string>)
    requires |rest| >= 1
    ensures Join([head] + rest) == head + " " + Join(rest)
  {
    assert ([head] + rest)[1..] == rest;
  }

  /** The first piece is the text up to its first space; there is a second
      piece exactly when there is a space. */
  lemma SplitHead(s: string)
    ensures ' ' !in s ==> Split(s) == [s]
    ensures ' ' in s ==> Split(s)[0] == s[..IndexOf(s, ' ')] && |Split(s)| >= 2
    ensures |Split(s)| >= 2 <==> ' ' in s
    ensures |Split(s)[0]| <= |s| && Split(s)[0] == s[..|Split(s)[0]|]
  {
  }

  /** Lower-casing keeps the length and every space where it was. */
  lemma LowerKeepsSpaces(s: string)
    ensures |ToLower(s)| == |s|
    ensures forall k :: 0 <= k < |s| ==> (ToLower(s)[k] == ' ' <==> s[k] == ' ')
    ensures ToLower(ToLower(s)) == ToLower(s)
  {
  }

  // ---------------------------------------------------------------------
  // Properties of `handleCommand`

  /** The switch knows exactly the nine listed words. */
  lemma ClassifyWords(w: string)
    ensures Classify(w) != OtherCmd <==> w in KnownWords
    ensures Classify(w) == AskCmd <==> w == "ask"
  {
  }

  /** A blank or all-white-space line changes nothing, not even the input. */
  lemma BlankIgnored(r: Replies, s: TermState, cmd: string, env: Env)
    requires forall k :: 0 <= k < |cmd| ==> IsSpace(cmd[k])
    ensures Submit(r, s, cmd, env) == Outcome(s, false)
  {
    TrimBlank(cmd);
  }

  /** Only `clear` empties the log and only `exit` closes the window; every other word appends. */
  lemma RespondKinds(r: Replies, clean: string, env: Env)
    ensures Respond(r, clean, env).ClearHistory? <==> Classify(CommandOf(clean)) == ClearCmd
    ensures Respond(r, clean, env).CloseWindow? <==> Classify(CommandOf(clean)) == ExitCmd
  {
  }

  /** Any other line clears the input and the busy flag, and, unless it is
      `clear`, logs the trimmed text as a command followed by at most one entry. */
  lemma CommandLogged(r: Replies, s: TermState, cmd: string, env: Env)
    requires Trim(cmd) != []
    ensures var t := Submit(r, s, cmd, env).state;
            t.input == "" && !t.isProcessing &&
            (Classify(CommandOf(Trim(cmd))) != ClearCmd ==>
               |s.history| + 1 <= |t.history| <= |s.history| + 2 &&
               t.history[..|s.history| + 1] == s.history + [LogEntry(CommandEntry, Trim(cmd))])
  {
    var logged := s.history + [LogEntry(CommandEntry, Trim(cmd))];
    var e := Respond(r, Trim(cmd), env);
    RespondKinds(r, Trim(cmd), env);
    if e.AppendEntry? {
      assert (logged + [e.entry])[..|logged|] == logged;
    }
  }

  /** The dispatched word is a non-empty, space-free prefix of the lower-cased text. */
  lemma CommandIsFirstWord(cmd: string)
    requires Trim(cmd) != []
    ensures var w := CommandOf(Trim(cmd));
            w != [] && ' ' !in w && |w| <= |Trim(cmd)| && w == ToLower(Trim(cmd))[..|w|]
  {
    var clean := Trim(cmd);
    TrimEnds(cmd);
    SplitHead(ToLower(clean));
    LowerKeepsSpaces(clean);
    assert ToLower(clean)[0] != ' ';
  }

  lemma ClearEmpties(r: Replies, s: TermState, cmd: string, env: Env)
    requires Trim(cmd) != [] && Classify(CommandOf(Trim(cmd))) == ClearCmd
    ensures Submit(r, s, cmd, env) == Outcome(TermState("", [], false), false)
  {
  }

  /** `help`, `whoami`, `youtube`, `github`, `contact` and `neofetch` each log one fixed output. */
  lemma FixedReplies(r: Replies, s: TermState, cmd: string, env: Env)
    requires Trim(cmd) != []
    ensures var k := Classify(CommandOf(Trim(cmd)));
            var logged := s.history + [LogEntry(CommandEntry, Trim(cmd))];
            (k == HelpCmd ==> Submit(r, s, cmd, env) == Outcome(TermState("", logged + [Output(r.help)], false), false)) &&
            (k == WhoamiCmd ==> Submit(r, s, cmd, env) == Outcome(TermState("", logged + [Output(r.whoami)], false), false)) &&
            (k == YoutubeCmd ==> Submit(r, s, cmd, env) == Outcome(TermState("", logged + [Output(r.youtube)], false), false)) &&
            (k == GithubCmd ==> Submit(r, s, cmd, env) == Outcome(TermState("", logged + [Output(r.github)], false), false)) &&
            (k == ContactCmd ==> Submit(r, s, cmd, env) == Outcome(TermState("", logged + [Output(r.contact)], false), false)) &&
            (k == NeofetchCmd ==> Submit(r, s, cmd, env) == Outcome(TermState("", logged + [Output(r.neofetch)], false), false))
  {
  }

  /** `ask` has an argument exactly when the trimmed line has a space. */
  lemma AskArguments(clean: string)
    ensures |Split(ToLower(clean))| >= 2 <==> ' ' in clean
  {
    SplitHead(ToLower(clean));
    LowerKeepsSpaces(clean);
    if ' ' in clean {
      var k :| 0 <= k < |clean| && clean[k] == ' ';
      assert ToLower(clean)[k] == ' ';
    }
  }

  /** `ask` alone answers with the usage error; with a question and no key,
      with the key error; otherwise with the assistant's reply or failure. */
  lemma RespondAsk(r: Replies, clean: string, env: Env)
    requires Classify(CommandOf(clean)) == AskCmd
    ensures ' ' !in clean ==> Respond(r, clean, env) == AppendEntry(Error(r.askUsage))
    ensures ' ' in clean && !env.apiKeyConfigured ==> Respond(r, clean, env) == AppendEntry(Error(r.noApiKey))
    ensures ' ' in clean && env.apiKeyConfigured ==>
              Respond(r, clean, env) ==
                match env.ask(Substring(clean, 4))
                case Answer(text) => AppendEntry(Output(text))
                case Raised(message) => AppendEntry(Error(ExecutionError(message)))
  {
    AskArguments(clean);
  }

  lemma AskErrors(r: Replies, s: TermState, cmd: string, env: Env)
    requires Trim(cmd) != [] && Classify(CommandOf(Trim(cmd))) == AskCmd
    ensures ' ' !in Trim(cmd) ==>
              Submit(r, s, cmd, env).state.history == s.history + [LogEntry(CommandEntry, Trim(cmd)), Error(r.askUsage)]
    ensures ' ' in Trim(cmd) && !env.apiKeyConfigured ==>
              Submit(r, s, cmd, env).state.history == s.history + [LogEntry(CommandEntry, Trim(cmd)), Error(r.noApiKey)]
  {
    RespondAsk(r, Trim(cmd), env);
  }

  /** The question handed to the assistant is the text after `ask `, as typed. */
  lemma AskQuery(cmd: string)
    requires Trim(cmd) != [] && Classify(CommandOf(Trim(cmd))) == AskCmd && ' ' in Trim(cmd)
    ensures Trim(cmd) == Trim(cmd)[..3] + " " + Substring(Trim(cmd), 4)
    ensures ToLower(Trim(cmd)[..3]) == "ask"
  {
    var clean := Trim(cmd);
    var low := ToLower(clean);
    ClassifyWords(CommandOf(clean));
    AskArguments(clean);
    SplitHead(low);
    assert low[..IndexOf(low, ' ')] == "ask";
    assert IndexOf(low, ' ') == 3;
    assert clean[3] == ' ' by {
      LowerKeepsSpaces(clean);
    }
    assert ToLower(clean[..3]) == low[..3];
  }

  /** A word the switch does not know logs one error naming it. */
  lemma UnknownCommand(r: Replies, s: TermState, cmd: string, env: Env)
    requires Trim(cmd) != [] && CommandOf(Trim(cmd)) !in KnownWords
    ensures Submit(r, s, cmd, env).state.history ==
              s.history + [LogEntry(CommandEntry, Trim(cmd)), Error(NotFound(CommandOf(Trim(cmd))))]
  {
    ClassifyWords(CommandOf(Trim(cmd)));
  }

  /** Only `exit` asks the shell to close the window; it logs nothing after its own entry. */
  lemma ExitCloses(r: Replies, s: TermState, cmd: string, env: Env)
    ensures Submit(r, s, cmd, env).closes <==> Trim(cmd) != [] && Classify(CommandOf(Trim(cmd))) == ExitCmd
    ensures Submit(r, s, cmd, env).closes ==>
              Submit(r, s, cmd, env).state == TermState("", s.history + [LogEntry(CommandEntry, Trim(cmd))], false)
    ensures !Submit(r, s, cmd, env).state.isProcessing || Trim(cmd) == []
  {
  }

  /** The shell events a submitted line sends: `exit` calls `onClose`, which
      the shell wires to closing the terminal (App.tsx:387); any other line
      sends none. */
  function ShellEvents(out: Outcome): (evs: seq<Shell.Event>)
    ensures |evs| <= 1
  {
    if out.closes then [Shell.CloseWin(AppID.Terminal)] else []
  }

  /** While the terminal is on screen, a submitted line is a run of the
      shell. `exit` closes the terminal's window on the desktop and leaves no
      application active; any other line leaves the shell as it was. */
  lemma ExitClosesTerminalWindow(sh: Shell.ShellState, r: Replies, s: TermState, cmd: string, env: Env)
    requires Shell.Enabled(sh, Shell.CloseWin(AppID.Terminal))
    ensures var out := Submit(r, s, cmd, env);
            var evs := ShellEvents(out);
            Shell.Runs(sh, evs) &&
            (out.closes ==>
               Shell.Run(sh, evs) == Shell.Close(sh, AppID.Terminal) &&
               Shell.Run(sh, evs).activeAppId != Some(AppID.Terminal) &&
               (!sh.isAndroidMode ==> !Shell.Run(sh, evs).windows[AppID.Terminal].isOpen)) &&
            (!out.closes ==> Shell.Run(sh, evs) == sh)
  {
    var evs := ShellEvents(Submit(r, s, cmd, env));
    if evs != [] {
      var e := Shell.CloseWin(AppID.Terminal);
      assert evs == [e] && evs[1..] == [];
      assert Shell.Run(sh, evs) == Shell.Run(Shell.Step(sh, e), []);
    }
  }

  /** A mounted terminal shows the language effect's log, without the management line. */
  lemma MountedLog(t: Texts)
    ensures |LanguageHistory(t)| == |InitialHistory(t)| - 1
    ensures LanguageHistory(t) == InitialHistory(t)[..2] + InitialHistory(t)[3..]
  {
  }

  // ---------------------------------------------------------------------
  // The terminal as an object with fields

  class TerminalSession {
    var input: string
    var history: seq<LogEntry>
    var isProcessing: bool

    function State(): TermState
      reads this
    {
      TermState(input, history, isProcessing)
    }

    constructor (t: Texts)
      ensures State() == InitialTerm(t)
    {
      input := "";
      history := InitialHistory(t);
      isProcessing := false;
    }

    /** The language effect, run on mount and on each language change. */
    method ResetForLanguage(t: Texts)
      modifies this
      ensures State() == old(State()).(history := LanguageHistory(t))
    {
      history := LanguageHistory(t);
    }

    /** Typing into the line. */
    method SetInput(text: string)
      modifies this
      ensures State() == old(State()).(input := text)
    {
      input := text;
    }

    /** Enter: returns whether `onClose` was invoked. */
    method HandleCommand(cmd: string, env: Env) returns (closes: bool)
      modifies this
      ensures State() == Submit(Fixed, old(State()), cmd, env).state
      ensures closes == Submit(Fixed, old(State()), cmd, env).closes
    {
      closes := false;
      var cleanCmd := Trim(cmd);
      if cleanCmd == [] {
        return;
      }
      history := history + [LogEntry(CommandEntry, cleanCmd)];
      input := "";
      isProcessing := true;
      var effect := Respond(Fixed, cleanCmd, env);
      closes := Perform(effect);
    }

    /** The `switch` arm's update to the log, then the `finally`. */
    method Perform(effect: Effect) returns (closes: bool)
      modifies this
      ensures State() == Apply(old(history), effect).state
      ensures closes == Apply(old(history), effect).closes
    {
      closes := false;
      match effect {
        case AppendEntry(e) =>
          history := history + [e];
        case ClearHistory =>
          history := [];
        case CloseWindow =>
          closes := true;
      }
      input := "";
      isProcessing := false;
    }
  }
}

/** The first-run wizard (components/Setup.tsx): a welcome step, a name
    step and a loading step, after which the shell is handed the name.

    The interval and the two time-outs of the loading step are collapsed
    into events: one `IntervalTick` per two-second tick and one `Finish`
    for the fade-out and the hand-over. */
module SetupWizard {
  import opened Types
  import Shell

  /** The messages the loading step cycles through, one per tick. */
  const LoadingTexts: seq<string> :=
    ["Hi there", "We're getting things ready for you", "This might take a few seconds", "Almost there..."]

  const FirstLoadingText := "Getting things ready..."

  /** `shown` is the interval's counter: how many loading messages have appeared. */
  datatype SetupState = SetupState(step: int, name: string, animateOut: bool, loadingText: string, shown: nat)

  function InitialSetup(): SetupState
  {
    SetupState(1, "", false, FirstLoadingText, 0)
  }

  /** `handleNext`: step 1 always advances; step 2 only with a non-blank name. */
  function Next(s: SetupState): SetupState
  {
    if s.step == 1 then s.(step := 2)
    else if s.step == 2 && Trim(s.name) != [] then s.(step := 3)
    else s
  }

  /** The footer button is rendered before the loading step only. */
  predicate ButtonShown(s: SetupState) { s.step < 3 }

  /** It is disabled on the name step while the trimmed name is empty. */
  predicate ButtonDisabled(s: SetupState) { s.step == 2 && Trim(s.name) == [] }

  function ClickButton(s: SetupState): SetupState
  {
    if ButtonShown(s) && !ButtonDisabled(s) then Next(s) else s
  }

  /** The name field exists on step 2 only; typing replaces the name. */
  function TypeName(s: SetupState, text: string): SetupState
  {
    if s.step == 2 then s.(name := text) else s
  }

  /** Enter in the name field advances only with a non-blank name. */
  function PressEnter(s: SetupState): SetupState
  {
    if s.step == 2 && Trim(s.name) != [] then Next(s) else s
  }

  /** One tick of the loading interval shows the next message. */
  function IntervalTick(s: SetupState): SetupState
  {
    if s.step == 3 && s.shown < |LoadingTexts| then
      s.(loadingText := LoadingTexts[s.shown], shown := s.shown + 1)
    else s
  }

  /** Once every message has appeared, the screen fades out and `onComplete`
      receives the name; before that nothing happens. */
  function Finish(s: SetupState): (SetupState, Option<string>)
  {
    if s.step == 3 && s.shown >= |LoadingTexts| then (s.(animateOut := true), Some(s.name))
    else (s, None)
  }

  datatype Event = NextClicked | EnterPressed | Typed(text: string) | Tick | Done

  function Step(s: SetupState, e: Event): SetupState
  {
    match e
    case NextClicked => ClickButton(s)
    case EnterPressed => PressEnter(s)
    case Typed(text) => TypeName(s, text)
    case Tick => IntervalTick(s)
    case Done => Finish(s).0
  }

  function Run(s: SetupState, evs: seq<Event>): SetupState
    decreases |evs|
  {
    if evs == [] then s else Run(Step(s, evs[0]), evs[1..])
  }

  /** The step is 1, 2 or 3; the loading messages appear on step 3 only,
      and step 3 is reached only with a non-blank name. */
  predicate Valid(s: SetupState)
  {
    1 <= s.step <= 3 && s.shown <= |LoadingTexts| &&
    (s.shown > 0 || s.animateOut ==> s.step == 3) &&
    (s.step == 3 ==> Trim(s.name) != [])
  }

  // ---------------------------------------------------------------------
  // Properties

  lemma InitialValid()
    ensures Valid(InitialSetup()) && InitialSetup().step == 1
  {
  }

  /** From step 1 the next step is 2; from step 2 it is 3 exactly when the
      trimmed name is non-empty, else the state stays; step 3 is final. */
  lemma NextSteps(s: SetupState)
    ensures s.step == 1 ==> Next(s) == s.(step := 2)
    ensures s.step == 2 ==> (Next(s).step == 3 <==> Trim(s.name) != [])
    ensures s.step == 2 && Trim(s.name) == [] ==> Next(s) == s
    ensures s.step == 3 ==> Next(s) == s
    ensures Next(s).name == s.name
  {
  }

  /** The disabled button and `handleNext`'s own guard agree: on any valid
      state a click is exactly `handleNext`, and so is Enter on the name step. */
  lemma ButtonAgreesWithNext(s: SetupState)
    requires Valid(s)
    ensures ButtonDisabled(s) <==> s.step == 2 && Next(s) == s
    ensures ClickButton(s) == Next(s)
    ensures s.step == 2 ==> PressEnter(s) == Next(s)
  {
  }

  /** Four ticks after reaching step 3 show the four messages in order; then
      the wizard hands over the name. */
  lemma LoadingSequence(s: SetupState)
    requires s.step == 3 && s.shown == 0
    ensures var t1 := IntervalTick(s);
            var t2 := IntervalTick(t1);
            var t3 := IntervalTick(t2);
            var t4 := IntervalTick(t3);
            t1.loadingText == LoadingTexts[0] && t2.loadingText == LoadingTexts[1] &&
            t3.loadingText == LoadingTexts[2] && t4.loadingText == LoadingTexts[3] &&
            Finish(t3).1 == None && Finish(t4).1 == Some(s.name) && Finish(t4).0.animateOut
  {
  }

  lemma StepPreservesValid(s: SetupState, e: Event)
    requires Valid(s)
    ensures Valid(Step(s, e))
    ensures s.step <= Step(s, e).step
  {
  }

  /** The step never decreases and stays within 1..3 along any run. */
  lemma {:induction false} RunPreservesValid(s: SetupState, evs: seq<Event>)
    requires Valid(s)
    ensures Valid(Run(s, evs))
    ensures s.step <= Run(s, evs).step
    decreases |evs|
  {
    if evs != [] {
      StepPreservesValid(s, evs[0]);
      RunPreservesValid(Step(s, evs[0]), evs[1..]);
    }
  }

  /** Whatever happens, the name the wizard hands over is non-blank, so the
      shell stores a name that counts on the next start and leaves the wizard. */
  lemma HandOverName(s: SetupState, sh: Shell.ShellState)
    requires Valid(s) && Finish(s).1.Some?
    ensures var name := Finish(s).1.value;
            Trim(name) != [] &&
            Shell.HasStoredName(Shell.CompleteSetup(sh, name)) &&
            Shell.InitFromStorage(Shell.CompleteSetup(sh, name)) == Shell.CompleteSetup(sh, name) &&
            Shell.ScreenOf(Shell.CompleteSetup(sh, name)) != Shell.SetupScreen
  {
    Shell.StorageEffectAfterSetup(sh, Finish(s).1.value);
  }

  // ---------------------------------------------------------------------
  // The wizard as an object with fields

  class Wizard {
    var step: int
    var name: string
    var animateOut: bool
    var loadingText: string
    var shown: nat

    function State(): SetupState
      reads this
    {
      SetupState(step, name, animateOut, loadingText, shown)
    }

    constructor ()
      ensures State() == InitialSetup()
    {
      step := 1;
      name := "";
      animateOut := false;
      loadingText := FirstLoadingText;
      shown := 0;
    }

    method HandleNext()
      modifies this
      ensures State() == Next(old(State()))
    {
      if step == 1 {
        step := 2;
      } else if step == 2 && Trim(name) != [] {
        step := 3;
      }
    }

    method HandleNameChange(text: string)
      modifies this
      ensures State() == TypeName(old(State()), text)
    {
      if step == 2 {
        name := text;
      }
    }

    method HandleEnter()
      modifies this
      ensures State() == PressEnter(old(State()))
    {
      if step == 2 && Trim(name) != [] {
        HandleNext();
      }
    }

    method HandleTick()
      modifies this
      ensures State() == IntervalTick(old(State()))
    {
      if step == 3 && shown < |LoadingTexts| {
        loadingText := LoadingTexts[shown];
        shown := shown + 1;
      }
    }

    /** The two time-outs after the last message; returns what `onComplete` receives. */
    method HandleFinish() returns (completed: Option<string>)
      modifies this
      ensures State() == Finish(old(State())).0
      ensures completed == Finish(old(State())).1
    {
      completed := None;
      if step == 3 && shown >= |LoadingTexts| {
        animateOut := true;
        completed := Some(name);
      }
    }
  }
}

/**
 * The productivity panel (src/components/AdvancedFeatures.tsx): a Pomodoro
 * timer alternating work and break phases, a focus-mode countdown, and three
 * daily goals with completion flags kept in the store.
 *
 * Each timer effect is modelled as one firing (`Tick`); a firing happens once
 * a second while the countdown is positive, and immediately when it has
 * reached zero.
 */
module AdvancedFeatures {
  import opened Wrappers
  import opened Storage
  import opened Text

  const GoalsKey := "edge-homepage-daily-goals"
  const ProgressKey := "edge-homepage-goal-progress"
  const DefaultGoals: seq<string> := ["", "", ""]
  const DefaultProgress: seq<bool> := [false, false, false]
  const DefaultPomodoroMinutes := 25
  const DefaultBreakMinutes := 5
  const DefaultFocusMinutes := 30
  const QuoteKey := "edge-homepage-current-quote"

  /** The quotes `generateNewQuote` draws from; a first mount draws from the first five only. */
  const Quotes: seq<string> := [
    "The secret of getting ahead is getting started. - Mark Twain",
    "It always seems impossible until it's done. - Nelson Mandela",
    "Don't watch the clock; do what it does. Keep going. - Sam Levenson",
    "The way to get started is to quit talking and begin doing. - Walt Disney",
    "You don't have to be great to start, but you have to start to be great. - Zig Ziglar",
    "Believe you can and you're halfway there. - Theodore Roosevelt",
    "Quality is not an act, it is a habit. - Aristotle",
    "Success is not final, failure is not fatal: It is the courage to continue that counts. - Winston Churchill",
    "The only way to do great work is to love what you do. - Steve Jobs",
    "Your time is limited, don't waste it living someone else's life. - Steve Jobs"
  ]

  // ---------------------------------------------------------------- Pomodoro

  datatype Timer = Timer(isRunning: bool, timeLeft: int, isBreak: bool)

  /**
   * One firing of the Pomodoro effect: count down while running, and at zero
   * switch phase, loading the other phase's full length.
   */
  function Tick(t: Timer, workMinutes: int, breakMinutes: int): Timer {
    if t.isRunning && t.timeLeft > 0 then t.(timeLeft := t.timeLeft - 1)
    else if t.isRunning && t.timeLeft == 0 then
      if t.isBreak then Timer(true, workMinutes * 60, false) else Timer(true, breakMinutes * 60, true)
    else t
  }

  function Ticks(t: Timer, n: nat, workMinutes: int, breakMinutes: int): Timer
    decreases n
  {
    if n == 0 then t else Ticks(Tick(t, workMinutes, breakMinutes), n - 1, workMinutes, breakMinutes)
  }

  /** `toggleTimer`: start or pause; starting a finished timer first loads a full work phase. */
  function Toggle(t: Timer, workMinutes: int): (r: Timer)
    ensures r.isRunning == !t.isRunning
    ensures !t.isRunning && t.timeLeft == 0 ==> r.timeLeft == workMinutes * 60 && !r.isBreak
    ensures t.isRunning || t.timeLeft != 0 ==> r.timeLeft == t.timeLeft && r.isBreak == t.isBreak
  {
    if !t.isRunning && t.timeLeft == 0 then Timer(true, workMinutes * 60, false)
    else t.(isRunning := !t.isRunning)
  }

  /** `resetTimer` and `updatePomodoroSettings`: stopped, work phase, full length. */
  function Reset(workMinutes: int): Timer {
    Timer(false, workMinutes * 60, false)
  }

  lemma {:induction false} TicksAdd(t: Timer, m: nat, n: nat, w: int, b: int)
    ensures Ticks(t, m + n, w, b) == Ticks(Ticks(t, m, w, b), n, w, b)
    decreases m
  {
    if m > 0 {
      TicksAdd(Tick(t, w, b), m - 1, n, w, b);
    }
  }

  /** A running phase with k seconds left reaches zero after exactly k ticks, in the same phase. */
  lemma {:induction false} RunDown(k: nat, isBreak: bool, w: int, b: int)
    ensures Ticks(Timer(true, k, isBreak), k, w, b) == Timer(true, 0, isBreak)
    decreases k
  {
    if k > 0 {
      assert Tick(Timer(true, k, isBreak), w, b) == Timer(true, k - 1, isBreak);
      RunDown(k - 1, isBreak, w, b);
    }
  }

  /**
   * A full cycle: a work phase of `w` minutes and a break of `b` minutes, each
   * followed by its switching firing, bring a started timer back to where it began.
   */
  lemma Cycle(w: nat, b: nat)
    ensures Ticks(Timer(true, w * 60, false), (w * 60 + 1) + (b * 60 + 1), w, b) == Timer(true, w * 60, false)
  {
    var start := Timer(true, w * 60, false);
    TicksAdd(start, w * 60 + 1, b * 60 + 1, w, b);
    TicksAdd(start, w * 60, 1, w, b);
    RunDown(w * 60, false, w, b);
    var onBreak := Timer(true, b * 60, true);
    assert Ticks(start, w * 60 + 1, w, b) == onBreak;
    TicksAdd(onBreak, b * 60, 1, w, b);
    RunDown(b * 60, true, w, b);
  }

  /**
   * A paused timer never moves, and neither does a running one whose time is
   * negative (a negative minutes entry): it is neither counting down nor at zero.
   */
  lemma {:induction false} Frozen(t: Timer, n: nat, w: int, b: int)
    requires !t.isRunning || t.timeLeft < 0
    ensures Ticks(t, n, w, b) == t
    decreases n
  {
    if n > 0 {
      Frozen(Tick(t, w, b), n - 1, w, b);
    }
  }

  /**
   * Pausing and resuming leaves the countdown where it was, unless it had
   * reached zero: then resuming starts a fresh work phase.
   */
  lemma ToggleTwice(t: Timer, w: int)
    ensures t.timeLeft != 0 ==> Toggle(Toggle(t, w), w) == t
    ensures t.isRunning && t.timeLeft == 0 ==> Toggle(Toggle(t, w), w) == Timer(true, w * 60, false)
  {
  }

  /** After a reset, starting runs a full work phase. */
  lemma StartAfterReset(w: int)
    ensures Toggle(Reset(w), w) == Timer(true, w * 60, false)
  {
  }

  // ---------------------------------------------------------------- focus mode

  datatype Focus = Focus(active: bool, timeLeft: int)

  /** One firing of the focus effect: count down, and at zero leave focus mode. */
  function FocusTick(f: Focus): Focus {
    if f.active && f.timeLeft > 0 then f.(timeLeft := f.timeLeft - 1)
    else if f.active && f.timeLeft == 0 then f.(active := false)
    else f
  }

  function FocusTicks(f: Focus, n: nat): Focus
    decreases n
  {
    if n == 0 then f else FocusTicks(FocusTick(f), n - 1)
  }

  /** `startFocusMode`: active, with the chosen duration in seconds. */
  function StartFocus(durationMinutes: int): Focus {
    Focus(true, durationMinutes * 60)
  }

  /** Started for `d` minutes, focus mode ends after `d * 60` ticks and the firing at zero. */
  lemma {:induction false} FocusRunsOut(k: nat)
    ensures FocusTicks(Focus(true, k), k + 1) == Focus(false, 0)
    decreases k
  {
    if k > 0 {
      assert FocusTick(Focus(true, k)) == Focus(true, k - 1);
      FocusRunsOut(k - 1);
    }
  }

  lemma FocusSession(d: nat)
    ensures FocusTicks(StartFocus(d), d * 60 + 1) == Focus(false, 0)
  {
    FocusRunsOut(d * 60);
  }

  /** Once ended, focus mode stays ended. */
  lemma {:induction false} FocusEnded(f: Focus, n: nat)
    requires !f.active
    ensures FocusTicks(f, n) == f
    decreases n
  {
    if n > 0 {
      FocusEnded(FocusTick(f), n - 1);
    }
  }

  // ---------------------------------------------------------------- mm:ss

  /** `formatTime`: minutes `Math.floor(s / 60)` and seconds `s % 60`, each padded to two digits. */
  function FormatTime(s: int): string {
    Pad2(s / 60) + ":" + Pad2(JsRem(s, 60))
  }

  /**
   * For a non-negative count the display reads back: the digits before the
   * colon are the minutes, the two after it the seconds below 60.
   */
  lemma FormatTimeReadsBack(s: nat)
    ensures var r := FormatTime(s);
      |r| >= 5 && r[|r| - 3] == ':' &&
      AllDigits(r[..|r| - 3]) && AllDigits(r[|r| - 2..]) &&
      DigitsValue(r[|r| - 2..]) < 60 &&
      60 * DigitsValue(r[..|r| - 3]) + DigitsValue(r[|r| - 2..]) == s
    ensures s < 6000 ==> |FormatTime(s)| == 5
  {
    var m := Pad2(s / 60);
    var c := Pad2(s % 60);
    Pad2Value(s / 60);
    Pad2Value(s % 60);
    var r := FormatTime(s);
    assert r == m + ":" + c;
    assert r[..|r| - 3] == m;
    assert r[|r| - 2..] == c;
  }

  // ---------------------------------------------------------------- goals

  /** `toggleGoalCompletion`: a copy with one flag flipped; a missing flag reads as unset. */
  function ToggleAt(flags: seq<bool>, i: nat): (r: seq<bool>)
    ensures |r| == if i < |flags| then |flags| else i + 1
    ensures r[i] == (i >= |flags| || !flags[i])
    ensures forall j :: 0 <= j < |r| && j != i ==> r[j] == (j < |flags| && flags[j])
  {
    if i < |flags| then flags[i := !flags[i]] else flags + seq(i - |flags|, _ => false) + [true]
  }

  lemma ToggleAtTwice(flags: seq<bool>, i: nat)
    requires i < |flags|
    ensures ToggleAt(ToggleAt(flags, i), i) == flags
  {
  }

  /** `updateGoal`: a copy with one goal replaced. */
  function UpdateAt(goals: seq<string>, i: nat, text: string): (r: seq<string>)
    requires i < |goals|
    ensures |r| == |goals| && r[i] == text
    ensures forall j :: 0 <= j < |goals| && j != i ==> r[j] == goals[j]
  {
    goals[i := text]
  }

  /** The stored goals, or three blanks when nothing usable is stored. */
  function LoadGoals(items: map<string, Value>): (r: seq<string>)
    ensures GoalsKey in items && items[GoalsKey].Texts? ==> r == items[GoalsKey].texts
    ensures GoalsKey !in items || !items[GoalsKey].Texts? ==> r == DefaultGoals
  {
    match Lookup(items, GoalsKey)
    case Some(Texts(goals)) => goals
    case _ => DefaultGoals
  }

  /** The stored completion flags, or three unset flags when nothing usable is stored. */
  function LoadProgress(items: map<string, Value>): (r: seq<bool>)
    ensures ProgressKey in items && items[ProgressKey].Flags? ==> r == items[ProgressKey].flags
    ensures ProgressKey !in items || !items[ProgressKey].Flags? ==> r == DefaultProgress
  {
    match Lookup(items, ProgressKey)
    case Some(Flags(flags)) => flags
    case _ => DefaultProgress
  }

  /** `parseInt(input) || fallback` for the three minute fields. */
  function MinutesInput(input: string, fallback: int): (r: int)
    ensures ParseInt(input).Some? && ParseInt(input).value != 0 ==> r == ParseInt(input).value
    ensures ParseInt(input).None? || ParseInt(input) == Some(0) ==> r == fallback
  {
    ParseIntOr(input, fallback)
  }

  // ---------------------------------------------------------------- quote

  /**
   * The quote shown on mount: the stored one when it is a non-empty text,
   * otherwise one of the first five quotes, picked by the random `draw`.
   */
  function InitialQuote(items: map<string, Value>, draw: nat): (r: string)
    requires draw < 5
    ensures LookupText(items, QuoteKey).Some? && LookupText(items, QuoteKey) != Some("") ==> r == LookupText(items, QuoteKey).value
    ensures LookupText(items, QuoteKey).None? || LookupText(items, QuoteKey) == Some("") ==> r == Quotes[draw] && r in Quotes[..5]
  {
    TextOr(items, QuoteKey, Quotes[draw])
  }

  // ---------------------------------------------------------------- the component

  class Features {
    var pomodoroMinutes: int
    var breakMinutes: int
    var isRunning: bool
    var timeLeft: int
    var isBreak: bool
    var dailyGoals: seq<string>
    var goalProgress: seq<bool>
    var focusModeActive: bool
    var focusDuration: int
    var focusTimeLeft: int
    var quote: string
    const store: Store

    function TimerState(): Timer
      reads this
    {
      Timer(isRunning, timeLeft, isBreak)
    }

    function FocusState(): Focus
      reads this
    {
      Focus(focusModeActive, focusTimeLeft)
    }

    /** Both goal lists are what the store holds under their keys. */
    ghost predicate Persisted()
      reads this, store
    {
      store.items == store.items[GoalsKey := Texts(dailyGoals)][ProgressKey := Flags(goalProgress)]
    }

    /** Mount: defaults for the timers, goals loaded, then written back by the save effects. */
    constructor (store: Store, draw: nat)
      requires draw < 5
      modifies store
      ensures this.store == store
      ensures pomodoroMinutes == DefaultPomodoroMinutes && breakMinutes == DefaultBreakMinutes
      ensures TimerState() == Reset(DefaultPomodoroMinutes)
      ensures focusDuration == DefaultFocusMinutes && FocusState() == Focus(false, 0)
      ensures dailyGoals == LoadGoals(old(store.items)) && goalProgress == LoadProgress(old(store.items))
      ensures quote == InitialQuote(old(store.items), draw)
      ensures store.items == old(store.items)[GoalsKey := Texts(dailyGoals)][ProgressKey := Flags(goalProgress)]
      ensures Persisted()
    {
      this.store := store;
      pomodoroMinutes := DefaultPomodoroMinutes;
      breakMinutes := DefaultBreakMinutes;
      isRunning := false;
      timeLeft := DefaultPomodoroMinutes * 60;
      isBreak := false;
      dailyGoals := LoadGoals(store.items);
      goalProgress := LoadProgress(store.items);
      focusModeActive := false;
      focusDuration := DefaultFocusMinutes;
      focusTimeLeft := 0;
      quote := InitialQuote(store.items, draw);
      new;
      store.Set(GoalsKey, Texts(dailyGoals));
      store.Set(ProgressKey, Flags(goalProgress));
    }

    method PomodoroTick()
      modifies this`timeLeft, this`isBreak
      ensures TimerState() == Tick(old(TimerState()), pomodoroMinutes, breakMinutes)
    {
      if isRunning && timeLeft > 0 {
        timeLeft := timeLeft - 1;
      } else if isRunning && timeLeft == 0 {
        if isBreak {
          isBreak := false;
          timeLeft := pomodoroMinutes * 60;
        } else {
          isBreak := true;
          timeLeft := breakMinutes * 60;
        }
      }
    }

    method FocusTickNow()
      modifies this`focusModeActive, this`focusTimeLeft
      ensures FocusState() == FocusTick(old(FocusState()))
    {
      if focusModeActive && focusTimeLeft > 0 {
        focusTimeLeft := focusTimeLeft - 1;
      } else if focusModeActive && focusTimeLeft == 0 {
        focusModeActive := false;
      }
    }

    method ToggleTimer()
      modifies this`isRunning, this`timeLeft, this`isBreak
      ensures TimerState() == Toggle(old(TimerState()), pomodoroMinutes)
    {
      if !isRunning && timeLeft == 0 {
        timeLeft := pomodoroMinutes * 60;
        isBreak := false;
      }
      isRunning := !isRunning;
    }

    method ResetTimer()
      modifies this`isRunning, this`timeLeft, this`isBreak
      ensures TimerState() == Reset(pomodoroMinutes)
    {
      isRunning := false;
      isBreak := false;
      timeLeft := pomodoroMinutes * 60;
    }

    method UpdatePomodoroSettings()
      modifies this`isRunning, this`timeLeft, this`isBreak
      ensures TimerState() == Reset(pomodoroMinutes)
    {
      isRunning := false;
      timeLeft := pomodoroMinutes * 60;
      isBreak := false;
    }

    /** Editing a minutes field changes only that setting; the running countdown keeps its time. */
    method SetPomodoroMinutes(input: string)
      modifies this`pomodoroMinutes
      ensures pomodoroMinutes == MinutesInput(input, DefaultPomodoroMinutes)
    {
      pomodoroMinutes := ParseIntOr(input, DefaultPomodoroMinutes);
    }

    method SetBreakMinutes(input: string)
      modifies this`breakMinutes
      ensures breakMinutes == MinutesInput(input, DefaultBreakMinutes)
    {
      breakMinutes := ParseIntOr(input, DefaultBreakMinutes);
    }

    method SetFocusDuration(input: string)
      modifies this`focusDuration
      ensures focusDuration == MinutesInput(input, DefaultFocusMinutes)
    {
      focusDuration := ParseIntOr(input, DefaultFocusMinutes);
    }

    method StartFocusMode()
      modifies this`focusModeActive, this`focusTimeLeft
      ensures FocusState() == StartFocus(focusDuration)
    {
      focusModeActive := true;
      focusTimeLeft := focusDuration * 60;
    }

    method EndFocusMode()
      modifies this`focusModeActive
      ensures !focusModeActive && focusTimeLeft == old(focusTimeLeft)
    {
      focusModeActive := false;
    }

    /** The index is one of the rendered goals' positions. */
    method ToggleGoalCompletion(index: nat)
      requires index < |dailyGoals| && Persisted()
      modifies this`goalProgress, store
      ensures goalProgress == ToggleAt(old(goalProgress), index)
      ensures store.items == old(store.items)[ProgressKey := Flags(goalProgress)]
      ensures Persisted()
    {
      goalProgress := ToggleAt(goalProgress, index);
      store.Set(ProgressKey, Flags(goalProgress));
    }

    method UpdateGoal(index: nat, text: string)
      requires index < |dailyGoals| && Persisted()
      modifies this`dailyGoals, store
      ensures dailyGoals == UpdateAt(old(dailyGoals), index, text)
      ensures store.items == old(store.items)[GoalsKey := Texts(dailyGoals)]
      ensures Persisted()
    {
      dailyGoals := UpdateAt(dailyGoals, index, text);
      store.Set(GoalsKey, Texts(dailyGoals));
    }

    /**
     * `generateNewQuote`: draws quotes at random until one differs from the
     * one shown, then shows and stores it. `draws` is the run of random
     * indices; the loop ends within it whenever one of them names another quote.
     */
    method GenerateNewQuote(draws: seq<nat>) returns (used: nat)
      requires forall k :: 0 <= k < |draws| ==> draws[k] < |Quotes|
      requires exists k :: 0 <= k < |draws| && Quotes[draws[k]] != quote
      modifies this`quote, store
      ensures used < |draws| && quote == Quotes[draws[used]] && quote != old(quote)
      ensures forall k :: 0 <= k < used ==> Quotes[draws[k]] == old(quote)
      ensures store.items == old(store.items)[QuoteKey := Text(quote)]
    {
      used := FirstDifferent(Quotes, draws, quote);
      var newQuote := Quotes[draws[used]];
      quote := newQuote;
      store.Set(QuoteKey, Text(quote));
    }
  }

  /**
   * The `while (newQuote === quote)` loop of `generateNewQuote` over the run
   * `draws` of random indices into `pool`: the position of the first draw
   * that names a quote other than `current`.
   */
  method FirstDifferent(pool: seq<string>, draws: seq<nat>, current: string) returns (used: nat)
    requires forall k :: 0 <= k < |draws| ==> draws[k] < |pool|
    requires exists k :: 0 <= k < |draws| && pool[draws[k]] != current
    ensures used < |draws| && pool[draws[used]] != current
    ensures forall k :: 0 <= k < used ==> pool[draws[k]] == current
  {
    var newQuote := current;
    var i := 0;
    while newQuote == current
      invariant 0 <= i <= |draws|
      invariant forall k :: 0 <= k < i - 1 ==> pool[draws[k]] == current
      invariant i == 0 ==> newQuote == current
      invariant i > 0 ==> newQuote == pool[draws[i - 1]]
      decreases |draws| - i
    {
      assert forall k :: 0 <= k < i ==> pool[draws[k]] == current;
      newQuote := pool[draws[i]];
      i := i + 1;
    }
    used := i - 1;
  }

  /** What the panel writes, it reads back on the next mount. */
  lemma Reload(items: map<string, Value>, goals: seq<string>, progress: seq<bool>)
    ensures LoadGoals(items[GoalsKey := Texts(goals)][ProgressKey := Flags(progress)]) == goals
    ensures LoadProgress(items[GoalsKey := Texts(goals)][ProgressKey := Flags(progress)]) == progress
  {
  }
}

/**
 * The GUI sprites of pyboids/app/gui.py whose behaviour is state: the frame
 * lifetime of `TempMessage`, the periodic counter of `FPSMessage`, the hover and
 * click logic of `Button`, and the circular labels of `ToggleButton`.
 *
 * Rendering (fonts, rects, drawing) is not modelled. A motion event is
 * `Some(inside)` with `inside` the cursor-inside-rect test; a click event is a
 * boolean. The button's action is a callback supplied by the caller: the model
 * reports whether it is invoked.
 */
module Gui {
  import opened Options
  import opened Hovering

  // ---------------------------------------------------------------------------
  // Label formatting: `label.replace("-", " ").title()`

  predicate IsUpper(c: char) { 'A' <= c <= 'Z' }
  predicate IsLower(c: char) { 'a' <= c <= 'z' }

  /** The characters `str.title` treats as letters (ASCII only in this model). */
  predicate IsCased(c: char) { IsUpper(c) || IsLower(c) }

  function ToUpper(c: char): (u: char)
    ensures IsCased(u) == IsCased(c)
    ensures IsCased(c) ==> IsUpper(u)
    ensures !IsCased(c) ==> u == c
  {
    if IsLower(c) then (c as int - 32) as char else c
  }

  function ToLower(c: char): (l: char)
    ensures IsCased(l) == IsCased(c)
    ensures IsCased(c) ==> IsLower(l)
    ensures !IsCased(c) ==> l == c
  {
    if IsUpper(c) then (c as int + 32) as char else c
  }

  /** Case mapping forgets the case it started from. */
  lemma CaseMaps(c: char)
    ensures ToUpper(ToUpper(c)) == ToUpper(c) && ToUpper(ToLower(c)) == ToUpper(c)
    ensures ToLower(ToLower(c)) == ToLower(c) && ToLower(ToUpper(c)) == ToLower(c)
  {
  }

  /** The two case maps undo each other: a letter keeps its identity through a change of case. */
  lemma CaseInverse(c: char)
    ensures IsLower(c) ==> ToLower(c) == c && ToLower(ToUpper(c)) == c
    ensures IsUpper(c) ==> ToUpper(c) == c && ToUpper(ToLower(c)) == c
  {
  }

  /** `s.replace("-", " ")`. */
  function ReplaceDash(s: string): (r: string)
    ensures |r| == |s|
    ensures forall i :: 0 <= i < |s| ==> r[i] == (if s[i] == '-' then ' ' else s[i])
  {
    if s == [] then [] else [if s[0] == '-' then ' ' else s[0]] + ReplaceDash(s[1..])
  }

  /** Whether the character before position `i` is a letter; `prevCased` stands for the one before `s`. */
  predicate CasedBefore(s: string, i: int, prevCased: bool)
    requires 0 <= i < |s|
  {
    if i == 0 then prevCased else IsCased(s[i - 1])
  }

  /** `str.title` on the rest of a string, `prevCased` telling whether a letter came just before it. */
  function TitleFrom(s: string, prevCased: bool): (r: string)
    ensures |r| == |s|
  {
    if s == [] then []
    else [if prevCased then ToLower(s[0]) else ToUpper(s[0])] + TitleFrom(s[1..], IsCased(s[0]))
  }

  /** Each character is lower-cased when a letter comes just before it and upper-cased otherwise. */
  lemma {:induction false} TitleFromAt(s: string, prevCased: bool, i: int)
    requires 0 <= i < |s|
    ensures TitleFrom(s, prevCased)[i] == if CasedBefore(s, i, prevCased) then ToLower(s[i]) else ToUpper(s[i])
    decreases i
  {
    if i > 0 {
      TitleFromAt(s[1..], IsCased(s[0]), i - 1);
      assert s[1..][i - 1] == s[i];
      assert CasedBefore(s, i, prevCased) == CasedBefore(s[1..], i - 1, IsCased(s[0]));
    }
  }

  /** `str.title`: the first letter of every run of letters upper case, the others lower case. */
  function Title(s: string): (r: string)
    ensures |r| == |s|
    ensures forall i :: 0 <= i < |s| ==> IsCased(r[i]) == IsCased(s[i])
    ensures forall i :: 0 <= i < |s| && IsCased(s[i]) ==>
      (IsUpper(r[i]) <==> i == 0 || !IsCased(s[i - 1]))
    ensures forall i :: 0 <= i < |s| && !IsCased(s[i]) ==> r[i] == s[i]
    ensures forall i :: 0 <= i < |s| ==> ToLower(r[i]) == ToLower(s[i])
  {
    var r := TitleFrom(s, false);
    assert forall i :: 0 <= i < |s| ==>
      (r[i] == if CasedBefore(s, i, false) then ToLower(s[i]) else ToUpper(s[i])) && ToLower(r[i]) == ToLower(s[i])
    by {
      forall i | 0 <= i < |s|
        ensures (r[i] == if CasedBefore(s, i, false) then ToLower(s[i]) else ToUpper(s[i])) && ToLower(r[i]) == ToLower(s[i])
      {
        TitleFromAt(s, false, i);
        CaseMaps(s[i]);
      }
    }
    r
  }

  /** Title-casing an already title-cased string changes nothing. */
  lemma TitleIdempotent(s: string)
    ensures Title(Title(s)) == Title(s)
  {
    var t := Title(s);
    forall i | 0 <= i < |s|
      ensures Title(t)[i] == t[i]
    {
      TitleFromAt(s, false, i);
      TitleFromAt(t, false, i);
      CaseMaps(s[i]);
      assert CasedBefore(t, i, false) == CasedBefore(s, i, false);
    }
  }

  /** How a `ToggleButton` shows a label: dashes become spaces, then title case. */
  function FormatLabel(raw: string): (r: string)
    ensures |r| == |raw|
    ensures forall i :: 0 <= i < |raw| ==> r[i] != '-'
    ensures forall i :: 0 <= i < |raw| && raw[i] == '-' ==> r[i] == ' '
  {
    Title(ReplaceDash(raw))
  }

  /** Formatting a formatted label changes nothing. */
  lemma FormatLabelIdempotent(raw: string)
    ensures FormatLabel(FormatLabel(raw)) == FormatLabel(raw)
  {
    var f := FormatLabel(raw);
    assert ReplaceDash(f) == f;
    TitleIdempotent(ReplaceDash(raw));
  }

  // ---------------------------------------------------------------------------
  // Rotation of the label list: `np.roll(labels, -k)` for 0 <= k <= len(labels)

  function RotateLeft<T>(s: seq<T>, k: int): (r: seq<T>)
    requires 0 <= k <= |s|
    ensures |r| == |s|
    ensures multiset(r) == multiset(s)
  {
    assert s == s[..k] + s[k..];
    s[k..] + s[..k]
  }

  /** Position `i` of the rotated list holds the element `k` places further on, circularly. */
  lemma RotateLeftAt<T>(s: seq<T>, k: int, i: int)
    requires 0 <= k <= |s| && 0 <= i < |s|
    ensures RotateLeft(s, k)[i] == if i + k < |s| then s[i + k] else s[i + k - |s|]
  {
  }

  /** `labels.index(x)`: the first position holding `x`. */
  function IndexOf<T(==)>(s: seq<T>, x: T): (i: int)
    requires x in s
    ensures 0 <= i < |s| && s[i] == x
    ensures forall j :: 0 <= j < i ==> s[j] != x
  {
    if s[0] == x then 0 else 1 + IndexOf(s[1..], x)
  }

  /** The label list after `t` toggles. */
  function Toggled<T>(s: seq<T>, t: nat): (r: seq<T>)
    ensures |r| == |s| && multiset(r) == multiset(s)
  {
    if t == 0 || |s| == 0 then s else RotateLeft(Toggled(s, t - 1), 1)
  }

  /** Up to a full turn, `t` toggles rotate the list left by `t`. */
  lemma {:induction false} ToggledRotates<T>(s: seq<T>, t: nat)
    requires t <= |s|
    ensures Toggled(s, t) == RotateLeft(s, t)
  {
    if t > 0 {
      ToggledRotates(s, t - 1);
      RotateOneMore(s, t);
    }
  }

  /** Rotating by one more place. */
  lemma RotateOneMore<T>(s: seq<T>, t: int)
    requires 1 <= t <= |s|
    ensures RotateLeft(RotateLeft(s, t - 1), 1) == RotateLeft(s, t)
  {
  }

  /** As many toggles as there are labels give back the original order. */
  lemma ToggleCycle<T>(s: seq<T>)
    ensures Toggled(s, |s|) == s
  {
    ToggledRotates(s, |s|);
  }

  // ---------------------------------------------------------------------------
  // TempMessage

  datatype TempState = TempState(counter: int, alive: bool)

  /** One `TempMessage.update`: count the frame and kill the message on the frame that reaches `duration`. */
  function TempStep(s: TempState, duration: int): TempState {
    var counter := s.counter + 1;
    TempState(counter, s.alive && counter != duration)
  }

  /** A new message after `k` updates. */
  function TempAfter(duration: int, k: nat): TempState {
    if k == 0 then TempState(0, true) else TempStep(TempAfter(duration, k - 1), duration)
  }

  /**
   * After `k` updates the counter is `k`; the message is alive until update
   * number `duration` (a duration below 1 is never reached), and that update is
   * the one that kills it.
   */
  lemma {:induction false} TempLifetime(duration: int, k: nat)
    ensures TempAfter(duration, k).counter == k
    ensures TempAfter(duration, k).alive <==> !(1 <= duration <= k)
    ensures 1 <= k ==> (TempAfter(duration, k - 1).alive && !TempAfter(duration, k).alive <==> k == duration)
  {
    if k > 0 {
      TempLifetime(duration, k - 1);
    }
  }

  class TempMessage {
    const duration: int
    var counter: int
    var alive: bool

    /** `TempMessage(pos, text, font, duration=100)`. */
    constructor(duration: int)
      ensures this.duration == duration && TempState(counter, alive) == TempAfter(duration, 0)
    {
      this.duration := duration;
      counter := 0;
      alive := true;
    }

    /** Counts one frame; `killed` says whether `kill` is called on this update. */
    method Update() returns (killed: bool)
      modifies this`counter, this`alive
      ensures TempState(counter, alive) == TempStep(TempState(old(counter), old(alive)), duration)
      ensures killed <==> counter == duration
    {
      counter := counter + 1;
      killed := counter == duration;
      if killed {
        alive := false;
      }
    }
  }

  // ---------------------------------------------------------------------------
  // FPSMessage

  datatype FpsState = FpsState(counter: int, time: real)

  /**
   * What one update does besides counting: nothing, a refresh showing the mean
   * frame time, or the ZeroDivisionError raised when the accumulated time is 0
   * (the refresh computes `1 / time`).
   */
  datatype FpsOutcome = Counting | Refreshed(meanTime: real) | ZeroDivision

  datatype FpsTick = FpsTick(state: FpsState, outcome: FpsOutcome)

  /** One `FPSMessage.update(time)`. */
  function FpsStep(s: FpsState, t: real, refreshEvery: int): FpsTick {
    var counter := s.counter + 1;
    var time := s.time + t;
    if counter != refreshEvery then FpsTick(FpsState(counter, time), Counting)
    else if refreshEvery == 0 then FpsTick(FpsState(counter, time), ZeroDivision)
    else
      var mean := time / refreshEvery as real;
      if mean == 0.0 then FpsTick(FpsState(counter, mean), ZeroDivision)
      else FpsTick(FpsState(0, 0.0), Refreshed(mean))
  }

  /** The sum of a sequence of frame times. */
  function Sum(s: seq<real>): real {
    if s == [] then 0.0 else Sum(s[..|s| - 1]) + s[|s| - 1]
  }

  lemma {:induction false} SumPositive(s: seq<real>)
    requires forall i :: 0 <= i < |s| ==> 0.0 < s[i]
    ensures s != [] ==> 0.0 < Sum(s)
    ensures 0.0 <= Sum(s)
  {
    if s != [] {
      SumPositive(s[..|s| - 1]);
    }
  }

  /** A new FPS message fed the frame times `times`; `None` once an update has raised. */
  function FpsRun(times: seq<real>, refreshEvery: int): Option<FpsState> {
    if times == [] then Some(FpsState(0, 0.0))
    else match FpsRun(times[..|times| - 1], refreshEvery)
      case None => None
      case Some(s) =>
        var tick := FpsStep(s, times[|times| - 1], refreshEvery);
        if tick.outcome == ZeroDivision then None else Some(tick.state)
  }

  /** Arithmetic behind ModOf: a factor of at least 1 does not shrink a positive number. */
  lemma MulAtLeast(a: int, n: int)
    ensures 1 <= a && 0 < n ==> n <= a * n
  {
  }

  /** Euclidean division is determined by quotient and remainder. */
  lemma ModOf(x: int, n: int, q: int, r: int)
    requires 0 < n && 0 <= r < n && x == q * n + r
    ensures x % n == r
  {
    var q', r' := x / n, x % n;
    assert x == q' * n + r';
    assert (q - q') * n == q * n - q' * n;
    assert (q' - q) * n == q' * n - q * n;
    MulAtLeast(q - q', n);
    MulAtLeast(q' - q, n);
  }

  /** Sum over a sequence grown at the end. */
  lemma SumSnoc(s: seq<real>, t: real)
    ensures Sum(s + [t]) == Sum(s) + t
  {
  }

  /** The update that takes a new message from `n - 1` to `n` frames, given the window before it. */
  lemma FpsStepWindow(n: int, refreshEvery: int, window: seq<real>, t: real)
    requires 1 <= refreshEvery && 1 <= n && 0.0 < t
    requires |window| == (n - 1) % refreshEvery
    requires forall i :: 0 <= i < |window| ==> 0.0 < window[i]
    ensures FpsStep(FpsState((n - 1) % refreshEvery, Sum(window)), t, refreshEvery).outcome != ZeroDivision
    ensures FpsStep(FpsState((n - 1) % refreshEvery, Sum(window)), t, refreshEvery).state ==
      FpsState(n % refreshEvery, if n % refreshEvery == 0 then 0.0 else Sum(window + [t]))
    ensures n % refreshEvery == 0 || n % refreshEvery == (n - 1) % refreshEvery + 1
  {
    var k := (n - 1) % refreshEvery;
    var q := (n - 1) / refreshEvery;
    assert n == q * refreshEvery + k + 1;
    SumSnoc(window, t);
    SumPositive(window);
    if k + 1 == refreshEvery {
      assert n == (q + 1) * refreshEvery + 0;
      ModOf(n, refreshEvery, q + 1, 0);
      assert 0.0 < Sum(window) + t;
      assert 0.0 < (Sum(window) + t) / refreshEvery as real;
    } else {
      ModOf(n, refreshEvery, q, k + 1);
    }
  }

  /** The frame times since the last refresh: the last `|times| % refreshEvery` of them. */
  function Recent(times: seq<real>, refreshEvery: int): (w: seq<real>)
    requires 1 <= refreshEvery
    ensures |w| == |times| % refreshEvery
  {
    times[|times| - |times| % refreshEvery..]
  }

  /** The frame times since the last refresh are among the frame times. */
  lemma RecentPositive(times: seq<real>, refreshEvery: int)
    requires 1 <= refreshEvery
    requires forall i :: 0 <= i < |times| ==> 0.0 < times[i]
    ensures forall i :: 0 <= i < |Recent(times, refreshEvery)| ==> 0.0 < Recent(times, refreshEvery)[i]
  {
    var w := Recent(times, refreshEvery);
    forall i | 0 <= i < |w| ensures 0.0 < w[i] {
      assert w[i] == times[|times| - |w| + i];
    }
  }

  /** One more frame time either starts a new window (on a refresh) or extends the current one. */
  lemma RecentSnoc(times: seq<real>, refreshEvery: int)
    requires 1 <= refreshEvery && 1 <= |times|
    requires |times| % refreshEvery == 0 || |times| % refreshEvery == (|times| - 1) % refreshEvery + 1
    ensures Recent(times, refreshEvery) ==
      if |times| % refreshEvery == 0 then []
      else Recent(times[..|times| - 1], refreshEvery) + [times[|times| - 1]]
  {
    var n, k := |times|, (|times| - 1) % refreshEvery;
    if n % refreshEvery != 0 {
      assert times[n - (k + 1)..] == times[..n - 1][n - 1 - k..] + [times[n - 1]];
    }
  }

  /** A run that has not raised, extended by an update that does not raise. */
  lemma FpsRunExtend(prefix: seq<real>, t: real, refreshEvery: int, s: FpsState)
    requires FpsRun(prefix, refreshEvery) == Some(s)
    requires FpsStep(s, t, refreshEvery).outcome != ZeroDivision
    ensures FpsRun(prefix + [t], refreshEvery) == Some(FpsStep(s, t, refreshEvery).state)
  {
    assert (prefix + [t])[..|prefix|] == prefix;
  }

  /**
   * With positive frame times and `refreshEvery >= 1`, no update raises; after
   * `n` updates the counter is `n % refreshEvery`, so it stays in
   * [0, refreshEvery) and is 0 after every `refreshEvery`-th update, and the
   * time is the sum of the frame times since the last refresh.
   */
  lemma {:induction false} FpsRunWindow(times: seq<real>, refreshEvery: int)
    requires 1 <= refreshEvery
    requires forall i :: 0 <= i < |times| ==> 0.0 < times[i]
    ensures FpsRun(times, refreshEvery) == Some(FpsState(|times| % refreshEvery, Sum(Recent(times, refreshEvery))))
  {
    if times == [] {
      ModOf(0, refreshEvery, 0, 0);
      assert Recent(times, refreshEvery) == [];
    } else {
      var prefix, t := times[..|times| - 1], times[|times| - 1];
      var window := Recent(prefix, refreshEvery);
      FpsRunWindow(prefix, refreshEvery);
      RecentPositive(prefix, refreshEvery);
      FpsStepWindow(|times|, refreshEvery, window, t);
      FpsRunExtend(prefix, t, refreshEvery, FpsState(|prefix| % refreshEvery, Sum(window)));
      assert prefix + [t] == times;
      RecentSnoc(times, refreshEvery);
    }
  }

  class FpsMessage {
    const refreshEvery: int
    var counter: int
    var time: real

    /** `FPSMessage(pos, text, font, refresh_every=40)`. */
    constructor(refreshEvery: int)
      ensures this.refreshEvery == refreshEvery && Some(FpsState(counter, time)) == FpsRun([], refreshEvery)
    {
      this.refreshEvery := refreshEvery;
      counter := 0;
      time := 0.0;
    }

    /** Adds one frame time; the text a refresh shows is not modelled, only the mean time it is made from. */
    method Update(t: real) returns (outcome: FpsOutcome)
      modifies this`counter, this`time
      ensures FpsTick(FpsState(counter, time), outcome) == FpsStep(FpsState(old(counter), old(time)), t, refreshEvery)
    {
      counter := counter + 1;
      time := time + t;
      outcome := Counting;
      if counter == refreshEvery {
        if refreshEvery == 0 {
          outcome := ZeroDivision;
          return;
        }
        time := time / refreshEvery as real;
        if time == 0.0 {
          outcome := ZeroDivision;
          return;
        }
        outcome := Refreshed(time);
        counter := 0;
        time := 0.0;
      }
    }
  }

  // ---------------------------------------------------------------------------
  // Button and ToggleButton

  class Button {
    const hasAction: bool
    var hover: bool
    var text: string

    constructor(text: string, hasAction: bool)
      ensures this.text == text && this.hasAction == hasAction && !hover
    {
      this.text := text;
      this.hasAction := hasAction;
      hover := false;
    }

    /** The hover flag follows the cursor on motion; the action runs on a click while hovering. */
    method Update(motion: Option<bool>, click: bool) returns (invoked: bool)
      modifies this`hover
      ensures hover == NextHover(old(hover), motion)
      ensures motion.Some? ==> hover == motion.value
      ensures motion.None? ==> hover == old(hover)
      ensures invoked <==> hasAction && click && hover
    {
      if motion.Some? {
        var inside := motion.value;
        if hover && !inside {
          hover := false;
        } else if !hover && inside {
          hover := true;
        }
      }
      invoked := hasAction && click && hover;
    }
  }

  class ToggleButton {
    const hasAction: bool
    const phrase: string
    var hover: bool
    var labels: seq<string>
    /** The shown label, `self.label` (`label` is a reserved word in Dafny). */
    var current: string
    var text: string

    /**
     * Shows `phrase` followed by the formatted initial label, and rotates the
     * labels so that the initial label comes first. The source raises
     * ValueError when non-empty labels lack `initLabel`; `NewToggleButton` is
     * the entry point that models that case.
     */
    constructor(phrase: string, hasAction: bool, labels: seq<string>, initLabel: string)
      requires labels == [] || initLabel in labels
      ensures this.phrase == phrase && this.hasAction == hasAction && !hover
      ensures current == FormatLabel(initLabel) && text == phrase + current
      ensures labels == [] ==> this.labels == []
      ensures labels != [] ==> this.labels == RotateLeft(labels, IndexOf(labels, initLabel)) && this.labels[0] == initLabel
      ensures |this.labels| == |labels| && multiset(this.labels) == multiset(labels)
    {
      this.phrase := phrase;
      this.hasAction := hasAction;
      current := FormatLabel(initLabel);
      text := phrase + FormatLabel(initLabel);
      hover := false;
      if labels != [] {
        this.labels := RotateLeft(labels, IndexOf(labels, initLabel));
      } else {
        this.labels := labels;
      }
    }

    /**
     * Moves to the next label, circularly. With no labels the source raises
     * IndexError after leaving the (empty) list as it was; `ok` is then false.
     */
    method Toggle() returns (ok: bool)
      modifies this`labels, this`current, this`text
      ensures ok <==> old(labels) != []
      ensures ok ==> labels == RotateLeft(old(labels), 1) && current == FormatLabel(labels[0]) && text == phrase + current
      ensures !ok ==> labels == old(labels) && current == old(current) && text == old(text)
    {
      if labels == [] {
        return false;
      }
      labels := RotateLeft(labels, 1);
      current := FormatLabel(labels[0]);
      text := phrase + current;
      ok := true;
    }

    /** The base button's update (hover, then the action), followed by a toggle on a click while hovering. */
    method Update(motion: Option<bool>, click: bool) returns (invoked: bool, toggled: bool)
      modifies this`hover, this`labels, this`current, this`text
      ensures hover == NextHover(old(hover), motion)
      ensures invoked <==> hasAction && click && hover
      ensures toggled <==> click && hover && old(labels) != []
      ensures toggled ==> labels == RotateLeft(old(labels), 1) && current == FormatLabel(labels[0]) && text == phrase + current
      ensures !toggled ==> labels == old(labels) && current == old(current) && text == old(text)
    {
      hover := NextHover(hover, motion);
      invoked := hasAction && click && hover;
      toggled := false;
      if click && hover && |labels| > 0 {
        toggled := Toggle();
      }
    }
  }

  /** `ToggleButton(...)`, with `None` for the ValueError of `labels.index(init_label)`. */
  method NewToggleButton(phrase: string, hasAction: bool, labels: seq<string>, initLabel: string)
    returns (r: Option<ToggleButton>)
    ensures r.None? <==> labels != [] && initLabel !in labels
    ensures r.Some? ==> fresh(r.value) && r.value.phrase == phrase && r.value.hasAction == hasAction && !r.value.hover
    ensures r.Some? ==> r.value.current == FormatLabel(initLabel) && r.value.text == phrase + r.value.current
    ensures r.Some? && labels == [] ==> r.value.labels == []
    ensures r.Some? && labels != [] ==>
      r.value.labels == RotateLeft(labels, IndexOf(labels, initLabel)) && r.value.labels[0] == initLabel
    ensures r.Some? ==> |r.value.labels| == |labels| && multiset(r.value.labels) == multiset(labels)
  {
    if labels != [] && initLabel !in labels {
      return None;
    }
    var b := new ToggleButton(phrase, hasAction, labels, initLabel);
    r := Some(b);
  }
}

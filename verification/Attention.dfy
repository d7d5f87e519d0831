/**
 The blinking title (frontend/src/attention.ts:130-173, 255-261, 279-303): an interval, the title to
 put back, two listeners, and what the developer sees of them.
 */
module Attention {
  import opened Wrappers

  const MARK := "●"

  /** What the tick of one interval closes over. */
  datatype Flash = Flash(headline: string, original: string, marked: bool)

  function TitleOf(flash: Flash): string {
    if flash.marked then MARK + " " + flash.headline else flash.original
  }

  // --- the module and its document, as one value ---

  /** intervals holds every interval started and not cleared, wherever its number is kept. */
  datatype Tab = Tab(
    title: string, timer: Option<nat>, restore: Option<string>,
    onFocus: bool, onVisibility: bool,
    intervals: map<nat, Flash>, started: nat,
    hidden: bool, focused: bool, enabled: bool)

  predicate Away(t: Tab) { t.hidden || !t.focused }

  function Stopped(t: Tab): Tab {
    t.(timer := None, restore := None, onFocus := false, onVisibility := false,
       intervals := if t.timer.Some? then t.intervals - {t.timer.value} else t.intervals,
       title := t.restore.GetOr(t.title))
  }

  function Flashing(t: Tab, headline: string): Tab {
    var original := t.restore.GetOr(t.title);
    var flash := Flash(headline, original, true);
    var stopped := Stopped(t);
    stopped.(title := TitleOf(flash), restore := Some(original), timer := Some(t.started),
      intervals := stopped.intervals[t.started := flash], started := t.started + 1,
      onFocus := true, onVisibility := true)
  }

  function Ticked(t: Tab, n: nat): Tab
    requires n in t.intervals
  {
    var flash := t.intervals[n].(marked := !t.intervals[n].marked);
    t.(intervals := t.intervals[n := flash], title := TitleOf(flash))
  }

  function Returned(t: Tab): Tab { if Away(t) then t else Stopped(t) }

  function Announced(t: Tab, headline: string): Tab { if Away(t) then Flashing(t, headline) else t }

  /** The page is hidden or shown; a listener hears of both. */
  function Shown(t: Tab, hidden: bool): Tab {
    var after := t.(hidden := hidden);
    if t.onVisibility && hidden != t.hidden then Returned(after) else after
  }

  /** The window gains or loses focus; only gaining it has a listener. */
  function Focused(t: Tab, focused: bool): Tab {
    var after := t.(focused := focused);
    if t.onFocus && focused && !t.focused then Returned(after) else after
  }

  function Toggled(t: Tab): Tab {
    if t.enabled then Stopped(t.(enabled := false)) else t.(enabled := true)
  }

  // --- in place ---

  class TitleFlash {
    var title: string
    var timer: Option<nat>
    var restore: Option<string>
    var onFocus: bool
    var onVisibility: bool
    var intervals: map<nat, Flash>
    var started: nat
    var hidden: bool
    var focused: bool
    var enabled: bool

    ghost function State(): Tab
      reads this
    {
      Tab(title, timer, restore, onFocus, onVisibility, intervals, started, hidden, focused, enabled)
    }

    constructor (title: string, enabled: bool)
      ensures State() == Start(title, enabled)
    {
      this.title, this.enabled := title, enabled;
      timer, restore, onFocus, onVisibility := None, None, false, false;
      intervals, started := map[], 0;
      hidden, focused := false, true;
    }

    method StopFlash()
      modifies this
      ensures State() == Stopped(old(State()))
    {
      if timer.Some? {
        intervals := intervals - {timer.value};
        timer := None;
      }
      if restore.Some? {
        title := restore.value;
        restore := None;
      }
      onFocus := false;
      onVisibility := false;
    }

    method OnReturn()
      modifies this
      ensures State() == Returned(old(State()))
    {
      if !(hidden || !focused) {
        StopFlash();
      }
    }

    method StartFlash(headline: string)
      modifies this
      ensures State() == Flashing(old(State()), headline)
    {
      var original := restore.GetOr(title);
      StopFlash();
      restore := Some(original);
      var n := started;
      intervals, started := intervals[n := Flash(headline, original, false)], started + 1;
      Tick(n);
      timer := Some(n);
      onFocus := true;
      onVisibility := true;
    }

    method Tick(n: nat)
      requires n in intervals
      modifies this`title, this`intervals
      ensures State() == Ticked(old(State()), n)
    {
      var marked := !intervals[n].marked;
      intervals := intervals[n := intervals[n].(marked := marked)];
      title := if marked then MARK + " " + intervals[n].headline else intervals[n].original;
    }

    method Announce(headline: string)
      modifies this
      ensures State() == Announced(old(State()), headline)
    {
      if hidden || !focused {
        StartFlash(headline);
      }
    }

    method Toggle()
      modifies this
      ensures State() == Toggled(old(State()))
    {
      if enabled {
        enabled := false;
        StopFlash();
        return;
      }
      enabled := true;
    }

    method SetHidden(hidden: bool)
      modifies this
      ensures State() == Shown(old(State()), hidden)
    {
      var changed := hidden != this.hidden;
      this.hidden := hidden;
      if changed && onVisibility {
        OnReturn();
      }
    }

    method SetFocused(focused: bool)
      modifies this
      ensures State() == Focused(old(State()), focused)
    {
      var gained := focused && !this.focused;
      this.focused := focused;
      if gained && onFocus {
        OnReturn();
      }
    }
  }

  // --- runs ---

  datatype Event =
    | Announces(headline: string)
    | Fires(interval: nat)
    | Hides(hidden: bool)
    | Focuses(focused: bool)
    | Toggles
    | SwitchedElsewhere(on: bool)

  predicate Possible(t: Tab, e: Event) { e.Fires? ==> e.interval in t.intervals }

  function Step(t: Tab, e: Event): Tab
    requires Possible(t, e)
  {
    match e
    case Announces(headline) => Announced(t, headline)
    case Fires(n) => Ticked(t, n)
    case Hides(hidden) => Shown(t, hidden)
    case Focuses(focused) => Focused(t, focused)
    case Toggles => Toggled(t)
    case SwitchedElsewhere(on) => t.(enabled := on)
  }

  predicate CanRun(t: Tab, es: seq<Event>)
    decreases |es|
  {
    es == [] || (Possible(t, es[0]) && CanRun(Step(t, es[0]), es[1..]))
  }

  function After(t: Tab, es: seq<Event>): Tab
    requires CanRun(t, es)
    decreases |es|
  {
    if es == [] then t else After(Step(t, es[0]), es[1..])
  }

  function Start(title: string, enabled: bool): Tab {
    Tab(title, None, None, false, false, map[], 0, false, true, enabled)
  }

  // --- what holds in every state ---

  /** Timer, title to restore and listeners come and go together, and no interval is left behind. */
  predicate Agrees(t: Tab) {
    (t.timer.Some? <==> t.restore.Some?) && (t.timer.Some? <==> t.onFocus) && (t.timer.Some? <==> t.onVisibility) &&
    t.intervals.Keys == (if t.timer.Some? then {t.timer.value} else {})
  }

  /** The title is the one the interval put there, and it blinks only while the developer is away. */
  predicate Blinks(t: Tab) {
    t.timer.Some? && t.timer.value in t.intervals ==>
      Away(t) && t.title == TitleOf(t.intervals[t.timer.value]) &&
      t.restore == Some(t.intervals[t.timer.value].original)
  }

  /** The title the page has of its own. */
  function Own(t: Tab): string { t.restore.GetOr(t.title) }

  predicate Sound(t: Tab, own: string) { Agrees(t) && Blinks(t) && Own(t) == own }

  lemma StepKeepsSound(t: Tab, e: Event, own: string)
    requires Sound(t, own) && Possible(t, e)
    ensures Sound(Step(t, e), own)
  {
  }

  /**
   In every run: one interval at most, in step with the restored title and the listeners; the page's
   own title is never lost, however often an announcement lands in the middle of a blink; and a title
   blinks only while nobody is looking.
   */
  lemma {:induction false} EveryRunIsSound(t: Tab, es: seq<Event>, own: string)
    requires Sound(t, own) && CanRun(t, es)
    ensures Sound(After(t, es), own)
    decreases |es|
  {
    hide Sound, Step, Possible;
    if es != [] {
      StepKeepsSound(t, es[0], own);
      EveryRunIsSound(Step(t, es[0]), es[1..], own);
    }
  }

  /** Whenever no flash is running, the title is the one the page started with. */
  lemma TheTitleIsPutBack(title: string, enabled: bool, es: seq<Event>)
    requires CanRun(Start(title, enabled), es)
    ensures var t := After(Start(title, enabled), es);
      t.restore.GetOr(title) == title && |t.intervals| <= 1 &&
      (t.timer == None <==> t.restore == None) && (t.timer == None <==> t.intervals == map[]) &&
      (t.timer == None || !Away(t) ==> t.title == title && t.timer == None && !t.onFocus && !t.onVisibility)
  {
    EveryRunIsSound(Start(title, enabled), es, title);
    var t := After(Start(title, enabled), es);
    assert |t.intervals| == |t.intervals.Keys|;
    assert t.timer == None || t.timer.value in t.intervals;
  }

  // --- what the developer sees of it ---

  /** The same without intervals, listeners or a title to restore: is a headline waiting, and which? */
  datatype View = View(waiting: Option<string>, hidden: bool, focused: bool, enabled: bool)

  function Seen(t: Tab): View {
    View(
      if t.timer.Some? && t.timer.value in t.intervals then Some(t.intervals[t.timer.value].headline) else None,
      t.hidden, t.focused, t.enabled)
  }

  /** A headline waits from its announcement until the developer is back, or switches the alert off. */
  function ViewStep(v: View, e: Event): View {
    match e
    case Announces(headline) => if v.hidden || !v.focused then v.(waiting := Some(headline)) else v
    case Fires(_) => v
    case Hides(hidden) => v.(hidden := hidden, waiting := if hidden || !v.focused then v.waiting else None)
    case Focuses(focused) => v.(focused := focused, waiting := if v.hidden || !focused then v.waiting else None)
    case Toggles => v.(enabled := !v.enabled, waiting := if v.enabled then None else v.waiting)
    case SwitchedElsewhere(on) => v.(enabled := on)
  }

  function ViewAfter(v: View, es: seq<Event>): View
    decreases |es|
  {
    if es == [] then v else ViewAfter(ViewStep(v, es[0]), es[1..])
  }

  lemma StepIsSeen(t: Tab, e: Event, own: string)
    requires Sound(t, own) && Possible(t, e)
    ensures Seen(Step(t, e)) == ViewStep(Seen(t), e)
  {
  }

  /** The last headline announced in the developer's absence is the one that waits, until they return. */
  lemma {:induction false} TheLastHeadlineWaits(t: Tab, es: seq<Event>, own: string)
    requires Sound(t, own) && CanRun(t, es)
    ensures Seen(After(t, es)) == ViewAfter(Seen(t), es)
    decreases |es|
  {
    hide Sound, Step, Possible, Seen, ViewStep;
    if es != [] {
      StepKeepsSound(t, es[0], own);
      StepIsSeen(t, es[0], own);
      TheLastHeadlineWaits(Step(t, es[0]), es[1..], own);
    }
  }

  /** An announcement to nobody's eyes is in the title at once, over the page's own one; to them it is none. */
  lemma AnAnnouncementIsSeenAtOnce(t: Tab, headline: string, own: string)
    requires Sound(t, own)
    ensures t.hidden || !t.focused ==>
      Announced(t, headline).title == "● " + headline && Announced(t, headline).restore == Some(own)
    ensures !t.hidden && t.focused ==> Announced(t, headline) == t
  {
    assert MARK + " " == "● ";
  }

  /** Each tick shows what the last did not: the marked headline, then the page's own title, in turn. */
  lemma TicksAlternate(t: Tab, n: nat, own: string)
    requires Sound(t, own) && n in t.intervals
    ensures Ticked(Ticked(t, n), n) == t
    ensures {t.title, Ticked(t, n).title} == {own, MARK + " " + t.intervals[n].headline}
  {
    var t' := Ticked(t, n);
    assert t.timer == Some(n);
    assert Ticked(t', n).intervals == t.intervals;
  }
}

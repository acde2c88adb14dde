/** The two counters of pages/09_Day9.py. The plain variable is set to 0 at
    the top of every script run, so a click can move it to 1 or -1 and no
    further; the session-state counter is created once and then survives
    reruns, so it sums every click. Each button press is one rerun. */
module Counter {
  import opened Wrappers
  import opened Text

  /** The button pressed on a rerun, if any. */
  datatype Click = NoClick | StandardPlus | StandardMinus | StatePlus | StateMinus

  /** What one rerun shows, and the session counter it leaves behind. */
  datatype CounterRerun = CounterRerun(standardShown: int, counter: int)

  /** One script run: `count_wrong = 0`, then its buttons; the session
      counter is initialised only when absent, then its buttons. */
  function Rerun(stored: Option<int>, click: Click): (r: CounterRerun)
    ensures r.standardShown == (if click.StandardPlus? then 1 else if click.StandardMinus? then -1 else 0)
    ensures r.counter - stored.GetOr(0) == (if click.StatePlus? then 1 else if click.StateMinus? then -1 else 0)
  {
    var wrong := if click.StandardPlus? then 0 + 1 else if click.StandardMinus? then 0 - 1 else 0;
    var counter := stored.GetOr(0);
    var counter' := if click.StatePlus? then counter + 1 else if click.StateMinus? then counter - 1 else counter;
    CounterRerun(wrong, counter')
  }

  /** The session counter after a sequence of reruns. */
  function CounterAfter(stored: Option<int>, clicks: seq<Click>): int
    decreases |clicks|
  {
    if clicks == [] then stored.GetOr(0)
    else CounterAfter(Some(Rerun(stored, clicks[0]).counter), clicks[1..])
  }

  /** The session counter is the number of "+" presses on its column minus
      the number of "-" presses, whatever the other column's buttons did. */
  lemma {:induction false} CounterCountsClicks(stored: Option<int>, clicks: seq<Click>)
    ensures CounterAfter(stored, clicks)
            == stored.GetOr(0) + Count(clicks, StatePlus) - Count(clicks, StateMinus)
    decreases |clicks|
  {
    if clicks != [] {
      CounterCountsClicks(Some(Rerun(stored, clicks[0]).counter), clicks[1..]);
    }
  }

  /** Starting from a fresh session the counter is exactly the click balance. */
  lemma FreshCounter(clicks: seq<Click>)
    ensures CounterAfter(None, clicks) == Count(clicks, StatePlus) - Count(clicks, StateMinus)
  {
    CounterCountsClicks(None, clicks);
  }

  /** The plain variable never shows anything but -1, 0 or 1, however many
      times its buttons were pressed before. */
  lemma StandardNeverAccumulates(stored: Option<int>, click: Click)
    ensures -1 <= Rerun(stored, click).standardShown <= 1
    ensures Rerun(stored, click).standardShown == Rerun(None, click).standardShown
  {
  }
}

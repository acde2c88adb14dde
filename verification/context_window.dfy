/** The context-window demo of pages/12_Day12.py: a list of numbered
    messages in session state, an "Add Message" button, a window size of 1
    to 20, and the window `history[-window:]`. */
module ContextWindow {
  import opened Wrappers
  import opened Text

  /** The window-size number input: 1 to 20, default 5. */
  type WindowSize = w: nat | 1 <= w <= 20 witness 5

  function Min(a: nat, b: nat): nat
  {
    if a <= b then a else b
  }

  /** Python `h[start:]` for any integer `start`: a negative start counts
      from the end and is clamped to the front, a start past the end gives
      the empty list. */
  function PySuffix<T>(h: seq<T>, start: int): seq<T>
  {
    var from := if start < 0 then (if |h| + start < 0 then 0 else |h| + start)
                else (if start > |h| then |h| else start);
    h[from..]
  }

  /** `context_demo[-max_window:]`: the last `min(n, w)` messages in their
      original order; empty exactly when the history is. */
  function Window<T>(h: seq<T>, w: WindowSize): (r: seq<T>)
    ensures |r| == Min(|h|, w)
    ensures r == h[|h| - |r|..]
    ensures r != [] <==> h != []
  {
    PySuffix(h, -(w as int))
  }

  /** Why the lower bound of the window size matters: `h[-0:]` is the whole
      list, not an empty window. */
  lemma NegativeZeroIsWholeList<T>(h: seq<T>)
    ensures PySuffix(h, -0) == h
  {
  }

  /** The text of the n-th added message. */
  function Label(n: nat): string
  {
    "Message " + DecimalString(n)
  }

  /** "Add Message": appends `Message {len + 1}`. */
  function AddMessage(h: seq<string>): (h': seq<string>)
    ensures |h'| == |h| + 1 && h'[..|h|] == h
    ensures h'[|h|] == Label(|h'|)
  {
    h + [Label(|h| + 1)]
  }

  function Labels(k: nat): (r: seq<string>)
    ensures |r| == k
  {
    seq(k, i requires 0 <= i => Label(i + 1))
  }

  function AddTimes(h: seq<string>, k: nat): seq<string>
    decreases k
  {
    if k == 0 then h else AddTimes(AddMessage(h), k - 1)
  }

  /** k adds from an empty history give `Message 1` to `Message k`. */
  lemma AddsFromEmpty(k: nat)
    ensures AddTimes([], k) == Labels(k)
  {
    AddsExtend(0, k);
  }

  lemma {:induction false} AddsExtend(m: nat, k: nat)
    ensures AddTimes(Labels(m), k) == Labels(m + k)
    decreases k
  {
    if k > 0 {
      assert AddMessage(Labels(m)) == Labels(m + 1);
      AddsExtend(m + 1, k - 1);
    }
  }

  /** Added messages are all different: each carries its own number. */
  lemma LabelsDistinct(k: nat, i: nat, j: nat)
    requires i < k && j < k && i != j
    ensures Labels(k)[i] != Labels(k)[j]
  {
    if Labels(k)[i] == Labels(k)[j] {
      var a, b := DecimalString(i + 1), DecimalString(j + 1);
      assert Label(i + 1)[8..] == a && Label(j + 1)[8..] == b;
      DecimalStringInjective(i + 1, j + 1);
    }
  }

  datatype DemoAction = AddClick | ClearClick | NoClick

  /** What the page shows: the full-history count and the window. */
  datatype DemoView = DemoView(count: nat, window: seq<string>)

  datatype DemoRerun = DemoRerun(history: seq<string>, view: DemoView)

  /** One script run: initialise when absent, apply an Add click, show the
      count and the window, then apply a Clear click. */
  function Rerun(stored: Option<seq<string>>, action: DemoAction, w: WindowSize): (r: DemoRerun)
    ensures var h := stored.GetOr([]);
      && (action.AddClick? ==> r.history == AddMessage(h))
      && (action.NoClick? ==> r.history == h)
      && (action.ClearClick? ==> r.history == [])
    ensures !action.ClearClick? ==> r.view.count == |r.history| && r.view.window == Window(r.history, w)
    ensures action.ClearClick? ==> r.view.count == |stored.GetOr([])|
    ensures action.ClearClick? ==> r.view.window == Window(stored.GetOr([]), w)
  {
    var h := stored.GetOr([]);
    var shown := if action.AddClick? then AddMessage(h) else h;
    var view := DemoView(|shown|, Window(shown, w));
    DemoRerun(if action.ClearClick? then [] else shown, view)
  }
}

/**
 * The chat flyout's layout (public/chat_flyout.tsx): which pages are visible, whether the two
 * panels can be resized, their sizes and hidden flags, and the module-level latch that keeps
 * the history page mounted once it has been shown.
 */
module ChatFlyout {
  import opened Wrappers

  /** `chatContext.selectedTabId`: the three tabs the flyout knows, and any other id. */
  datatype TabId = Chat | History | Trace | OtherTab

  /** What one render reads: the selected tab, whether an override component is given, fullscreen. */
  datatype RenderInput = RenderInput(selectedTabId: TabId, hasOverrideComponent: bool, flyoutFullScreen: bool)

  /**
   * What one render derives. A panel size is a percentage, or `None` for `undefined`
   * (the resizable container then decides).
   */
  datatype Layout = Layout(
    chatPageVisible: bool,
    chatHistoryPageVisible: bool,
    chatTraceVisible: bool,
    resizable: bool,
    leftPanelSize: Option<int>,
    rightPanelSize: Option<int>)

  /** `getLeftPanelSize`: the chat page's panel. */
  function LeftPanelSize(resizable: bool, chatPageVisible: bool): (size: Option<int>)
    ensures size.None? <==> resizable
    ensures size == Some(100) <==> !resizable && chatPageVisible
    ensures size == Some(0) <==> !resizable && !chatPageVisible
  {
    if resizable then None
    else if chatPageVisible then Some(100)
    else Some(0)
  }

  /** `getRightPanelSize`: the panel holding the history page and the trace. */
  function RightPanelSize(resizable: bool, chatHistoryPageVisible: bool, chatTraceVisible: bool): (size: Option<int>)
    ensures size.None? <==> resizable
    ensures size == Some(100) <==> !resizable && (chatHistoryPageVisible || chatTraceVisible)
    ensures size == Some(0) <==> !resizable && !chatHistoryPageVisible && !chatTraceVisible
  {
    if resizable then None
    else if chatHistoryPageVisible || chatTraceVisible then Some(100)
    else Some(0)
  }

  /** The derivation `ChatFlyout` performs on every render. */
  function LayoutOf(input: RenderInput): (l: Layout)
    // an override component hides all three pages
    ensures input.hasOverrideComponent ==> !l.chatPageVisible && !l.chatHistoryPageVisible && !l.chatTraceVisible
    // the history page and the trace each follow their tab alone, and never show together
    ensures l.chatHistoryPageVisible <==> !input.hasOverrideComponent && input.selectedTabId == History
    ensures l.chatTraceVisible <==> !input.hasOverrideComponent && input.selectedTabId == Trace
    ensures !(l.chatHistoryPageVisible && l.chatTraceVisible)
    // the chat page follows its tab, and fullscreen always shows it
    ensures l.chatPageVisible <==> !input.hasOverrideComponent && (input.selectedTabId == Chat || input.flyoutFullScreen)
    // outside fullscreen at most one page shows
    ensures !input.flyoutFullScreen ==>
      (l.chatPageVisible ==> !l.chatHistoryPageVisible && !l.chatTraceVisible)
    // the panels are resizable exactly in fullscreen with history or trace shown, and then unsized
    ensures l.resizable <==> input.flyoutFullScreen && (l.chatHistoryPageVisible || l.chatTraceVisible)
    ensures l.resizable ==> l.leftPanelSize.None? && l.rightPanelSize.None?
    ensures !l.resizable ==> l.leftPanelSize == Some(if l.chatPageVisible then 100 else 0)
    ensures !l.resizable ==> l.rightPanelSize == Some(if l.chatHistoryPageVisible || l.chatTraceVisible then 100 else 0)
  {
    var (chat, history, trace) :=
      if input.hasOverrideComponent then (false, false, false)
      else match input.selectedTabId
        case Chat => (true, false, false)
        case History => (false, true, false)
        case Trace => (false, false, true)
        case OtherTab => (false, false, false);
    var chatPageVisible := chat || (!input.hasOverrideComponent && input.flyoutFullScreen);
    var resizable := input.flyoutFullScreen && (history || trace);
    Layout(chatPageVisible, history, trace, resizable,
           LeftPanelSize(resizable, chatPageVisible), RightPanelSize(resizable, history, trace))
  }

  /** Outside a resizable split the two panels split the flyout: never both full, sizes add to 0 or 100. */
  lemma FixedSizesPartition(input: RenderInput)
    requires !LayoutOf(input).resizable
    ensures LayoutOf(input).leftPanelSize.Some? && LayoutOf(input).rightPanelSize.Some?
    ensures !(LayoutOf(input).leftPanelSize == Some(100) && LayoutOf(input).rightPanelSize == Some(100))
    ensures LayoutOf(input).leftPanelSize.value + LayoutOf(input).rightPanelSize.value in {0, 100}
  {
  }

  /** The left panel's `initialSize`: 70 in a resizable split, otherwise unset. */
  function LeftInitialSize(l: Layout): (size: Option<int>)
    ensures size.Some? <==> l.resizable
    ensures size.Some? ==> size.value == 70
  {
    if l.resizable then Some(70) else None
  }

  /** The right panel's `initialSize`: 30 in a resizable split, otherwise unset. */
  function RightInitialSize(l: Layout): (size: Option<int>)
    ensures size.Some? <==> l.resizable
    ensures size.Some? ==> size.value == 30
  {
    if l.resizable then Some(30) else None
  }

  /** The left panel carries `llm-chat-hidden` when its size is 0. */
  predicate LeftPanelHidden(l: Layout)
  {
    l.leftPanelSize == Some(0)
  }

  /** The right panel carries `llm-chat-hidden` when the left panel's size is 100. */
  predicate RightPanelHidden(l: Layout)
  {
    l.leftPanelSize == Some(100)
  }

  /**
   * What the panel rules amount to on a derived layout: the left panel is hidden exactly when
   * the chat page is not shown outside a split, the right panel exactly when the chat page fills
   * the flyout, and then the right panel is empty; the two are never hidden together, and the
   * initial sizes of a split add up to the whole flyout.
   */
  lemma PanelRules(input: RenderInput)
    ensures LeftPanelHidden(LayoutOf(input)) <==> !LayoutOf(input).resizable && !LayoutOf(input).chatPageVisible
    ensures RightPanelHidden(LayoutOf(input)) <==> !LayoutOf(input).resizable && LayoutOf(input).chatPageVisible
    ensures RightPanelHidden(LayoutOf(input)) ==> LayoutOf(input).rightPanelSize == Some(0)
    ensures !(LeftPanelHidden(LayoutOf(input)) && RightPanelHidden(LayoutOf(input)))
    ensures LayoutOf(input).resizable ==>
      LeftInitialSize(LayoutOf(input)).value + RightInitialSize(LayoutOf(input)).value == 100
  {
  }

  /** Whether the history page is visible in the render of `input`. */
  predicate HistoryShown(input: RenderInput)
  {
    LayoutOf(input).chatHistoryPageVisible
  }

  /** `chatHistoryPageLoaded` after one render, from its value before. */
  function LatchStep(loaded: bool, input: RenderInput): (r: bool)
    ensures r <==> loaded || HistoryShown(input)
  {
    if !loaded && LayoutOf(input).chatHistoryPageVisible then true else loaded
  }

  /** `chatHistoryPageLoaded` after a sequence of renders; once set it is never reset. */
  function LoadedAfter(loaded: bool, inputs: seq<RenderInput>): (r: bool)
    ensures loaded ==> r
    decreases |inputs|
  {
    if inputs == [] then loaded else LoadedAfter(LatchStep(loaded, inputs[0]), inputs[1..])
  }

  /** After any renders the latch is set exactly when it was set before or one of them showed history. */
  lemma {:induction false} LoadedAfterIff(loaded: bool, inputs: seq<RenderInput>)
    ensures LoadedAfter(loaded, inputs) <==> loaded || exists i :: 0 <= i < |inputs| && HistoryShown(inputs[i])
    decreases |inputs|
  {
    if inputs != [] {
      LoadedAfterIff(LatchStep(loaded, inputs[0]), inputs[1..]);
      if exists i :: 0 <= i < |inputs| && HistoryShown(inputs[i]) {
        var i :| 0 <= i < |inputs| && HistoryShown(inputs[i]);
        if i > 0 {
          assert HistoryShown(inputs[1..][i - 1]);
        }
      }
      if exists j :: 0 <= j < |inputs| - 1 && HistoryShown(inputs[1..][j]) {
        var j :| 0 <= j < |inputs| - 1 && HistoryShown(inputs[1..][j]);
        assert HistoryShown(inputs[j + 1]);
      }
    }
  }

  /** The latch is one-way: set once, it stays set through every later render. */
  lemma {:induction false} LatchIsMonotone(loaded: bool, inputs: seq<RenderInput>, k: nat)
    requires k <= |inputs|
    requires LoadedAfter(loaded, inputs[..k])
    ensures LoadedAfter(loaded, inputs)
  {
    LoadedAfterIff(loaded, inputs[..k]);
    LoadedAfterIff(loaded, inputs);
    if !loaded {
      var i :| 0 <= i < k && HistoryShown(inputs[..k][i]);
      assert HistoryShown(inputs[i]);
    }
  }

  /** The module the component lives in, with its one piece of mutable state. */
  class FlyoutModule {
    var chatHistoryPageLoaded: bool

    constructor ()
      ensures !chatHistoryPageLoaded
    {
      chatHistoryPageLoaded := false;
    }

    /**
     * One render: derives the layout, updates the latch, and says whether the history page is
     * mounted (it is mounted from its first showing on).
     */
    method Render(input: RenderInput) returns (l: Layout, historyMounted: bool)
      modifies this
      ensures l == LayoutOf(input)
      ensures chatHistoryPageLoaded == LatchStep(old(chatHistoryPageLoaded), input)
      ensures historyMounted == chatHistoryPageLoaded
    {
      l := LayoutOf(input);
      if !chatHistoryPageLoaded && l.chatHistoryPageVisible {
        chatHistoryPageLoaded := true;
      }
      historyMounted := chatHistoryPageLoaded;
    }
  }
}

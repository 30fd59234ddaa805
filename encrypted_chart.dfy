/** A portfolio chart card whose figures are either shown or masked. The
    card keeps one piece of state, whether it is revealed; it starts
    revealed for an authorized chart and masked for an encrypted one, and
    only an authorized chart has the eye button that flips it. */
module Chart {
  import opened Wrappers

  datatype AccessLevel = Encrypted | Authorized

  datatype ChartProps = ChartProps(title: string, value: string, change: string, isPositive: bool, accessLevel: AccessLevel)

  /** `useState(accessLevel === "authorized")`. */
  function InitiallyRevealed(level: AccessLevel): bool {
    level == Authorized
  }

  /** The eye button is rendered for authorized charts only. */
  predicate ToggleShown(level: AccessLevel) {
    level == Authorized
  }

  /** `isRevealed` after `clicks` presses of the eye button; a chart without
      the button can only have been clicked zero times. */
  function RevealedAfter(level: AccessLevel, clicks: nat): bool
    requires ToggleShown(level) || clicks == 0
  {
    if clicks == 0 then InitiallyRevealed(level) else !RevealedAfter(level, clicks - 1)
  }

  /** The two-state machine in closed form: a chart is revealed exactly when
      it is authorized and has been toggled an even number of times. In
      particular an encrypted chart is never revealed. */
  lemma {:induction false} RevealedAfterParity(level: AccessLevel, clicks: nat)
    requires ToggleShown(level) || clicks == 0
    ensures RevealedAfter(level, clicks) <==> level == Authorized && clicks % 2 == 0
  {
    if clicks > 0 {
      RevealedAfterParity(level, clicks - 1);
    }
  }

  /** Toggling twice gives back the state before. */
  lemma ToggleTwiceRestores(level: AccessLevel, clicks: nat)
    requires ToggleShown(level)
    ensures RevealedAfter(level, clicks + 2) == RevealedAfter(level, clicks)
  {
  }

  // -----------------------------------------------------------------------
  // What the card displays.

  /** A bar's height: 16px while masked, a random height between 20px and
      60px (not modelled further) while revealed. */
  datatype BarHeight = Fixed(px: nat) | Random(lowPx: nat, highPx: nat)

  datatype Bar = Bar(height: BarHeight, pulsing: bool, animationDelayMs: nat)

  const BAR_COUNT: nat := 12

  function BarAt(isRevealed: bool, i: nat): Bar {
    if isRevealed then Bar(Random(20, 60), false, i * 100) else Bar(Fixed(16), true, i * 100)
  }

  /** `generateEncryptedBars()`: twelve bars, the i-th delayed by i * 100 ms,
      all 16px and pulsing while masked. */
  function Bars(isRevealed: bool): (bars: seq<Bar>)
    ensures |bars| == BAR_COUNT
    ensures forall i :: 0 <= i < |bars| ==> bars[i].animationDelayMs == i * 100
    ensures forall i :: 0 <= i < |bars| ==> (bars[i].height == Fixed(16) <==> !isRevealed)
    ensures forall i :: 0 <= i < |bars| ==> (bars[i].pulsing <==> !isRevealed)
  {
    seq(BAR_COUNT, i requires 0 <= i => BarAt(isRevealed, i))
  }

  datatype Tone = SuccessTone | DestructiveTone
  datatype EyeIcon = Eye | EyeOff

  /** The card: the Encrypted badge, the eye button with its icon, the value
      and the coloured change text (or two pulsing placeholders), the bars,
      and the "Connect accredited wallet to decrypt data" notice. */
  datatype ChartView = ChartView(
    title: string,
    encryptedBadge: bool,
    toggle: Option<EyeIcon>,
    valueText: Option<string>,
    changeText: Option<(string, Tone)>,
    placeholders: bool,
    bars: seq<Bar>,
    decryptNotice: bool)

  function View(props: ChartProps, isRevealed: bool): (v: ChartView)
    ensures v.encryptedBadge <==> props.accessLevel == Encrypted
    ensures v.toggle.Some? <==> ToggleShown(props.accessLevel)
    ensures v.toggle.Some? ==> (v.toggle.value == Eye <==> isRevealed)
    ensures v.valueText.Some? <==> isRevealed
    ensures v.changeText.Some? <==> isRevealed
    ensures v.placeholders <==> !isRevealed
    ensures v.decryptNotice <==> !isRevealed
    ensures v.valueText.Some? ==> v.valueText.value == props.value
    ensures v.changeText.Some? ==>
              v.changeText.value.0 == props.change && (v.changeText.value.1 == SuccessTone <==> props.isPositive)
    ensures v.bars == Bars(isRevealed)
  {
    ChartView(
      props.title,
      props.accessLevel == Encrypted,
      if props.accessLevel == Authorized then Some(if isRevealed then Eye else EyeOff) else None,
      if isRevealed then Some(props.value) else None,
      if isRevealed then Some((props.change, if props.isPositive then SuccessTone else DestructiveTone)) else None,
      !isRevealed,
      Bars(isRevealed),
      !isRevealed)
  }

  /** Whatever has been clicked, an encrypted chart shows its badge, masks its
      value and change, draws flat pulsing bars and asks for an accredited
      wallet. */
  lemma EncryptedChartStaysMasked(props: ChartProps, clicks: nat)
    requires props.accessLevel == Encrypted
    requires ToggleShown(props.accessLevel) || clicks == 0
    ensures var v := View(props, RevealedAfter(props.accessLevel, clicks));
      v.encryptedBadge && v.toggle.None? && v.valueText.None? && v.changeText.None? && v.decryptNotice
      && forall i :: 0 <= i < |v.bars| ==> v.bars[i].height == Fixed(16)
  {
  }

  /** One mounted card. Its props are fixed by the caller (every call site
      passes a constant access level); `clicks` is the number of eye-button
      presses so far. */
  class EncryptedChart {
    const props: ChartProps
    var isRevealed: bool
    ghost var clicks: nat

    ghost predicate Valid()
      reads this
    {
      && (ToggleShown(props.accessLevel) || clicks == 0)
      && isRevealed == RevealedAfter(props.accessLevel, clicks)
      && (props.accessLevel == Encrypted ==> !isRevealed)
    }

    constructor (p: ChartProps)
      ensures Valid() && props == p && clicks == 0
      ensures isRevealed <==> p.accessLevel == Authorized
    {
      props := p;
      isRevealed := p.accessLevel == Authorized;
      clicks := 0;
    }

    /** The eye button's `onClick`: `setIsRevealed(!isRevealed)`. Only an
        authorized card renders the button. */
    method ClickToggle()
      requires Valid() && ToggleShown(props.accessLevel)
      modifies this
      ensures Valid()
      ensures isRevealed == !old(isRevealed) && clicks == old(clicks) + 1
    {
      isRevealed := !isRevealed;
      clicks := clicks + 1;
    }

    /** Renders the card from its current state. */
    method Render() returns (v: ChartView)
      requires Valid()
      ensures v == View(props, isRevealed)
      ensures props.accessLevel == Encrypted ==> v.valueText.None? && v.changeText.None? && v.decryptNotice
    {
      v := View(props, isRevealed);
    }
  }
}

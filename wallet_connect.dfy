/** The wallet button: a render function handed to the wallet kit's custom
    connect button, which derives `ready` and `connected` from the kit's
    render arguments and picks one of three views; and the simulated
    accreditation flag, which an effect clears when the account goes away
    and a 1.5 s timer sets after a connection. */
module Wallet {
  import opened Wrappers

  datatype AuthenticationStatus = Loading | Unauthenticated | Authenticated

  datatype Account = Account(displayName: string)

  datatype Chain = Chain(unsupported: bool)

  /** The render arguments the view reads; `authenticationStatus` is absent
      when the app configures no authentication. */
  datatype RenderProps = RenderProps(
    account: Option<Account>,
    chain: Option<Chain>,
    authenticationStatus: Option<AuthenticationStatus>,
    mounted: bool)

  /** `mounted && authenticationStatus !== 'loading'`. */
  predicate Ready(p: RenderProps) {
    p.mounted && p.authenticationStatus != Some(Loading)
  }

  /** `ready && account && chain && (!authenticationStatus || authenticationStatus === 'authenticated')`. */
  predicate Connected(p: RenderProps) {
    Ready(p) && p.account.Some? && p.chain.Some?
    && (p.authenticationStatus.None? || p.authenticationStatus == Some(Authenticated))
  }

  /** Connected, unfolded: mounted, an account and a chain, and either no
      authentication or a completed one. Being connected implies being
      ready, and an unauthenticated or loading session is never connected. */
  lemma ConnectedMeaning(p: RenderProps)
    ensures Connected(p) <==>
      p.mounted && p.account.Some? && p.chain.Some? && p.authenticationStatus in {None, Some(Authenticated)}
    ensures Connected(p) ==> Ready(p)
    ensures p.authenticationStatus in {Some(Loading), Some(Unauthenticated)} ==> !Connected(p)
  {
  }

  datatype Badge = Accredited | Verifying

  datatype WalletView = ConnectWalletButton | WrongNetworkButton | AccountView(displayName: string, badge: Badge)

  /** The three-way branch, tried in order: not connected, then an
      unsupported chain, then the account with its badge. */
  function SelectView(p: RenderProps, isAccredited: bool): (v: WalletView)
    ensures v.ConnectWalletButton? <==> !Connected(p)
    ensures v.WrongNetworkButton? <==> Connected(p) && p.chain.value.unsupported
    ensures v.AccountView? <==> Connected(p) && !p.chain.value.unsupported
    ensures v.AccountView? ==> v.displayName == p.account.value.displayName
    ensures v.AccountView? ==> (v.badge == Accredited <==> isAccredited)
  {
    if !Connected(p) then ConnectWalletButton
    else if p.chain.value.unsupported then WrongNetworkButton
    else AccountView(p.account.value.displayName, if isAccredited then Accredited else Verifying)
  }

  /** The badge depends on the accreditation flag alone: two account views
      built from any render arguments carry the same badge exactly when the
      flags agree. */
  lemma BadgeOnlyFromAccreditation(p: RenderProps, q: RenderProps, a: bool, b: bool)
    requires SelectView(p, a).AccountView? && SelectView(q, b).AccountView?
    ensures SelectView(p, a).badge == SelectView(q, b).badge <==> a == b
  {
  }

  /** The wrapper `div`: hidden from assistive technology, transparent and
      inert while not ready. */
  datatype Wrapper = Wrapper(ariaHidden: bool, transparent: bool, noPointerEvents: bool, noUserSelect: bool, content: WalletView)

  /** What the component returns: nothing when the wallet library reports a
      connection, otherwise the wrapper around the selected view. */
  function Render(isConnected: bool, p: RenderProps, isAccredited: bool): (r: Option<Wrapper>)
    ensures r.None? <==> isConnected
    ensures r.Some? ==> r.value.content == SelectView(p, isAccredited)
    ensures r.Some? ==> (r.value.ariaHidden <==> !Ready(p))
    ensures r.Some? ==> r.value.ariaHidden == r.value.transparent == r.value.noPointerEvents == r.value.noUserSelect
  {
    if isConnected then None
    else
      var hidden := !Ready(p);
      Some(Wrapper(hidden, hidden, hidden, hidden, SelectView(p, isAccredited)))
  }

  /** A hidden wrapper only ever holds the "Connect Wallet" button. */
  lemma HiddenWrapperShowsConnectButton(isConnected: bool, p: RenderProps, isAccredited: bool)
    requires Render(isConnected, p, isAccredited).Some? && Render(isConnected, p, isAccredited).value.ariaHidden
    ensures Render(isConnected, p, isAccredited).value.content == ConnectWalletButton
  {
  }

  // -----------------------------------------------------------------------
  // The accreditation flag.

  /** The events that touch the flag: the effect re-running because
      `isConnected` or `address` changed, and one scheduled accreditation
      timer firing. The delay itself is not modelled: a timer may fire after
      any number of later events. */
  datatype AccountEvent = AccountChanged(isConnected: bool, address: Option<string>) | TimerFired

  /** The flag, whether the effect last saw a connected account, and how
      many scheduled timers have not fired yet. */
  datatype AccreditationState = AccreditationState(isAccredited: bool, signedIn: bool, pendingTimers: nat)

  const INITIAL: AccreditationState := AccreditationState(false, false, 0)

  /** The effect as the component has it. A connection schedules a timer and
      leaves the flag as it is; anything else clears the flag. The effect
      returns no cleanup, so a scheduled timer always fires and sets the
      flag, whatever happened in between. */
  function StepAsWritten(s: AccreditationState, e: AccountEvent): (t: AccreditationState)
    ensures e.AccountChanged? && !(e.isConnected && Present(e.address)) ==> !t.isAccredited
  {
    match e
    case AccountChanged(isConnected, address) =>
      if isConnected && Present(address) then AccreditationState(s.isAccredited, true, s.pendingTimers + 1)
      else AccreditationState(false, false, s.pendingTimers)
    case TimerFired =>
      if s.pendingTimers == 0 then s
      else AccreditationState(true, s.signedIn, s.pendingTimers - 1)
  }

  /** The effect with the cleanup it evidently needs: before it re-runs,
      the timer the previous run scheduled is cancelled. */
  function StepWithCleanup(s: AccreditationState, e: AccountEvent): (t: AccreditationState)
    ensures e.AccountChanged? && !(e.isConnected && Present(e.address)) ==> !t.isAccredited && t.pendingTimers == 0
    ensures AccreditedOnlyWhileSignedIn(s) ==> AccreditedOnlyWhileSignedIn(t)
  {
    match e
    case AccountChanged(isConnected, address) =>
      if isConnected && Present(address) then AccreditationState(s.isAccredited, true, 1)
      else AccreditationState(false, false, 0)
    case TimerFired =>
      if s.pendingTimers == 0 then s
      else AccreditationState(true, s.signedIn, s.pendingTimers - 1)
  }

  function RunAsWritten(s: AccreditationState, events: seq<AccountEvent>): AccreditationState
    decreases |events|
  {
    if events == [] then s else RunAsWritten(StepAsWritten(s, events[0]), events[1..])
  }

  function RunWithCleanup(s: AccreditationState, events: seq<AccountEvent>): AccreditationState
    decreases |events|
  {
    if events == [] then s else RunWithCleanup(StepWithCleanup(s, events[0]), events[1..])
  }

  /** The intended invariant: the flag is only ever set while the effect
      last saw a connected account, and a timer is only pending for that
      account. */
  predicate AccreditedOnlyWhileSignedIn(s: AccreditationState) {
    (s.isAccredited ==> s.signedIn) && (s.pendingTimers > 0 ==> s.signedIn)
  }

  /** With the cleanup, every run from the initial state keeps the invariant. */
  lemma {:induction false} WithCleanupKeepsInvariant(s: AccreditationState, events: seq<AccountEvent>)
    requires AccreditedOnlyWhileSignedIn(s)
    ensures AccreditedOnlyWhileSignedIn(RunWithCleanup(s, events))
    decreases |events|
  {
    if events != [] {
      WithCleanupKeepsInvariant(StepWithCleanup(s, events[0]), events[1..]);
    }
  }

  lemma WithCleanupFromStart(events: seq<AccountEvent>)
    ensures var s := RunWithCleanup(INITIAL, events); s.isAccredited ==> s.signedIn
  {
    WithCleanupKeepsInvariant(INITIAL, events);
  }

  /** As written, connecting and disconnecting within the 1.5 s delay lets
      the stale timer mark the disconnected user as accredited. */
  lemma AsWrittenStaleTimer()
    ensures var s := RunAsWritten(INITIAL, [AccountChanged(true, Some("0x1")), AccountChanged(false, None), TimerFired]);
      s.isAccredited && !s.signedIn
  {
    var s1 := StepAsWritten(INITIAL, AccountChanged(true, Some("0x1")));
    var s2 := StepAsWritten(s1, AccountChanged(false, None));
    var s3 := StepAsWritten(s2, TimerFired);
    assert s3.isAccredited && !s3.signedIn;
    assert [AccountChanged(true, Some("0x1")), AccountChanged(false, None), TimerFired][1..]
      == [AccountChanged(false, None), TimerFired];
    assert [AccountChanged(false, None), TimerFired][1..] == [TimerFired];
  }

  /** The component's accreditation state, updated as the effect and the
      timer callback do it. `signedIn` is what the effect last saw of its
      dependencies; `pendingTimers` counts callbacks scheduled but not
      fired. */
  class WalletConnect {
    var isAccredited: bool
    var signedIn: bool
    var pendingTimers: nat

    function Snapshot(): AccreditationState
      reads this
    {
      AccreditationState(isAccredited, signedIn, pendingTimers)
    }

    constructor ()
      ensures Snapshot() == INITIAL
    {
      isAccredited, signedIn, pendingTimers := false, false, 0;
    }

    /** The `useEffect` body, run when `isConnected` or `address` changes. */
    method RunEffect(isConnected: bool, address: Option<string>)
      modifies this
      ensures Snapshot() == StepAsWritten(old(Snapshot()), AccountChanged(isConnected, address))
      ensures !(isConnected && Present(address)) ==> !isAccredited
    {
      if isConnected && Present(address) {
        signedIn := true;
        pendingTimers := pendingTimers + 1;
      } else {
        signedIn := false;
        isAccredited := false;
      }
    }

    /** One scheduled `() => setIsAccredited(true)` firing. */
    method FireTimer()
      requires pendingTimers > 0
      modifies this
      ensures Snapshot() == StepAsWritten(old(Snapshot()), TimerFired)
      ensures isAccredited
    {
      isAccredited := true;
      pendingTimers := pendingTimers - 1;
    }
  }
}

/** The contract-interaction panel: three forms (issue a bond, purchase a
    bond, execute a trade) that the component turns into `writeContract`
    calls on the BloomSecureBonds contract, and the per-operation status that
    the wallet library's hooks report back (pending, transaction hash,
    waiting for the receipt). The hooks and the toast sink are inputs and
    outputs of this model; their own behaviour is not. */
module Contract {
  import opened Wrappers
  import opened BigIntParse

  /** The one contract every call targets. */
  const CONTRACT_ADDRESS: string := "0x742d35Cc6634C0532925a3b8D4C9db96C4b4d8b6"

  const CONNECT_FIRST: string := "Please connect your wallet first"

  /** The three operations; they are also the three tabs and the three
      independent status slots. */
  datatype Operation = Issue | Purchase | Trade

  // -----------------------------------------------------------------------
  // Form records. Every field holds the raw text of its input element.

  datatype BondField = Name | Symbol | Description | FaceValue | CouponRate | MaturityPeriod | TotalSupply

  datatype BondFormData = BondFormData(
    name: string, symbol: string, description: string,
    faceValue: string, couponRate: string, maturityPeriod: string, totalSupply: string)
  {
    function Get(f: BondField): string {
      match f
      case Name => name
      case Symbol => symbol
      case Description => description
      case FaceValue => faceValue
      case CouponRate => couponRate
      case MaturityPeriod => maturityPeriod
      case TotalSupply => totalSupply
    }

    /** `{...bondForm, f: v}`: the record with field `f` replaced by `v`. */
    function With(f: BondField, v: string): (r: BondFormData)
      ensures r.Get(f) == v
      ensures forall g :: g != f ==> r.Get(g) == Get(g)
    {
      match f
      case Name => this.(name := v)
      case Symbol => this.(symbol := v)
      case Description => this.(description := v)
      case FaceValue => this.(faceValue := v)
      case CouponRate => this.(couponRate := v)
      case MaturityPeriod => this.(maturityPeriod := v)
      case TotalSupply => this.(totalSupply := v)
    }
  }

  datatype TradeField = BondId | Quantity | Price | Seller

  datatype TradeFormData = TradeFormData(bondId: string, quantity: string, price: string, seller: string)
  {
    function Get(f: TradeField): string {
      match f
      case BondId => bondId
      case Quantity => quantity
      case Price => price
      case Seller => seller
    }

    /** `{...tradeForm, f: v}`: the record with field `f` replaced by `v`. */
    function With(f: TradeField, v: string): (r: TradeFormData)
      ensures r.Get(f) == v
      ensures forall g :: g != f ==> r.Get(g) == Get(g)
    {
      match f
      case BondId => this.(bondId := v)
      case Quantity => this.(quantity := v)
      case Price => this.(price := v)
      case Seller => this.(seller := v)
    }
  }

  const EMPTY_BOND_FORM: BondFormData := BondFormData("", "", "", "", "", "", "")
  const EMPTY_TRADE_FORM: TradeFormData := TradeFormData("", "", "", "")

  /** A bond form is determined by what its fields read. */
  lemma BondFormExtensional(a: BondFormData, b: BondFormData)
    requires forall f :: a.Get(f) == b.Get(f)
    ensures a == b
  {
    assert a.Get(Name) == b.Get(Name) && a.Get(Symbol) == b.Get(Symbol);
    assert a.Get(Description) == b.Get(Description) && a.Get(FaceValue) == b.Get(FaceValue);
    assert a.Get(CouponRate) == b.Get(CouponRate) && a.Get(MaturityPeriod) == b.Get(MaturityPeriod);
    assert a.Get(TotalSupply) == b.Get(TotalSupply);
  }

  /** A trade form is determined by what its fields read. */
  lemma TradeFormExtensional(a: TradeFormData, b: TradeFormData)
    requires forall f :: a.Get(f) == b.Get(f)
    ensures a == b
  {
    assert a.Get(BondId) == b.Get(BondId) && a.Get(Quantity) == b.Get(Quantity);
    assert a.Get(Price) == b.Get(Price) && a.Get(Seller) == b.Get(Seller);
  }

  /** Writing the same field twice keeps only the second value, and writing
      back what a field already holds changes nothing. */
  lemma BondWithLastWins(form: BondFormData, f: BondField, v: string, w: string)
    ensures form.With(f, v).With(f, w) == form.With(f, w)
    ensures form.With(f, form.Get(f)) == form
  {
    BondFormExtensional(form.With(f, v).With(f, w), form.With(f, w));
    BondFormExtensional(form.With(f, form.Get(f)), form);
  }

  lemma TradeWithLastWins(form: TradeFormData, f: TradeField, v: string, w: string)
    ensures form.With(f, v).With(f, w) == form.With(f, w)
    ensures form.With(f, form.Get(f)) == form
  {
    TradeFormExtensional(form.With(f, v).With(f, w), form.With(f, w));
    TradeFormExtensional(form.With(f, form.Get(f)), form);
  }

  /** Updates of two different fields commute. */
  lemma BondWithCommutes(form: BondFormData, f: BondField, v: string, g: BondField, w: string)
    requires f != g
    ensures form.With(f, v).With(g, w) == form.With(g, w).With(f, v)
  {
    BondFormExtensional(form.With(f, v).With(g, w), form.With(g, w).With(f, v));
  }

  lemma TradeWithCommutes(form: TradeFormData, f: TradeField, v: string, g: TradeField, w: string)
    requires f != g
    ensures form.With(f, v).With(g, w) == form.With(g, w).With(f, v)
  {
    TradeFormExtensional(form.With(f, v).With(g, w), form.With(g, w).With(f, v));
  }

  /** Every trade field is one of the four inputs. */
  lemma TradeFieldCases(f: TradeField)
    ensures f == BondId || f == Quantity || f == Price || f == Seller
  {
  }

  /** The trade-form inputs each tab renders: none on the Issue tab, bond
      id, quantity and price on the Purchase tab, and those three and the
      seller on the Trade tab. Both tabs edit the same record. */
  function VisibleTradeFields(tab: Operation): (fs: set<TradeField>)
    ensures forall f :: f in fs <==> tab != Issue && (f == Seller ==> tab == Trade)
  {
    match tab
    case Issue => {}
    case Purchase =>
      var fs := {BondId, Quantity, Price};
      assert forall f :: f in fs <==> f != Seller by {
        forall f
          ensures f in fs <==> f != Seller
        {
          TradeFieldCases(f);
        }
      }
      fs
    case Trade =>
      var fs := {BondId, Quantity, Price, Seller};
      assert forall f :: f in fs by {
        forall f
          ensures f in fs
        {
          TradeFieldCases(f);
        }
      }
      fs
  }

  // -----------------------------------------------------------------------
  // Call descriptors and handlers.

  /** One ABI argument: a `string`, a `uint256` (the BigInt as parsed, of
      any sign or size; the ABI encoder lives in the wallet library) or an
      `address` (the seller text, cast but never checked). */
  datatype AbiArg = Str(s: string) | Uint(n: int) | Address(a: string)

  /** What a handler passes to `writeContract`; `value` is `None` when the
      call attaches no value. */
  datatype WriteRequest = WriteRequest(address: string, functionName: string, args: seq<AbiArg>, value: Option<int>)

  /** The notification a handler emits. */
  datatype Toast = ToastError(message: string) | ToastSuccess(message: string)

  /** The effect of one handler run: the request given to `writeContract`,
      if the handler got as far as calling it, and the toast it showed. */
  datatype HandlerResult = HandlerResult(write: Option<WriteRequest>, toast: Toast)

  function FailureMessage(op: Operation): string {
    match op
    case Issue => "Failed to issue bond"
    case Purchase => "Failed to purchase bond"
    case Trade => "Failed to execute trade"
  }

  function SubmittedMessage(op: Operation): string {
    match op
    case Issue => "Bond issuance transaction submitted!"
    case Purchase => "Bond purchase transaction submitted!"
    case Trade => "Trade execution transaction submitted!"
  }

  /** The contract function each operation calls. */
  function FunctionName(op: Operation): string {
    match op
    case Issue => "issueBond"
    case Purchase => "purchaseBond"
    case Trade => "executeTrade"
  }

  /** The request of handleIssueBond, None when one of its four `BigInt`
      conversions throws. */
  function IssueRequest(form: BondFormData): Option<WriteRequest> {
    var faceValue := StringToBigInt(form.faceValue);
    var couponRate := StringToBigInt(form.couponRate);
    var maturityPeriod := StringToBigInt(form.maturityPeriod);
    var totalSupply := StringToBigInt(form.totalSupply);
    if faceValue.None? || couponRate.None? || maturityPeriod.None? || totalSupply.None? then None
    else Some(WriteRequest(CONTRACT_ADDRESS, FunctionName(Issue),
      [Str(form.name), Str(form.symbol), Str(form.description),
       Uint(faceValue.value), Uint(couponRate.value), Uint(maturityPeriod.value), Uint(totalSupply.value)],
      None))
  }

  /** The request of handlePurchaseBond: `value` is quantity times price. */
  function PurchaseRequest(form: TradeFormData): Option<WriteRequest> {
    var bondId := StringToBigInt(form.bondId);
    var quantity := StringToBigInt(form.quantity);
    var price := StringToBigInt(form.price);
    if bondId.None? || quantity.None? || price.None? then None
    else Some(WriteRequest(CONTRACT_ADDRESS, FunctionName(Purchase),
      [Uint(bondId.value), Uint(quantity.value), Uint(price.value)],
      Some(quantity.value * price.value)))
  }

  /** The request of handleExecuteTrade: the seller text goes through as is. */
  function TradeRequest(form: TradeFormData): Option<WriteRequest> {
    var bondId := StringToBigInt(form.bondId);
    var quantity := StringToBigInt(form.quantity);
    var price := StringToBigInt(form.price);
    if bondId.None? || quantity.None? || price.None? then None
    else Some(WriteRequest(CONTRACT_ADDRESS, FunctionName(Trade),
      [Uint(bondId.value), Uint(quantity.value), Uint(price.value), Address(form.seller)],
      None))
  }

  /** The shape the three handlers share: an early return when the wallet is
      not connected, then a `try` whose body builds the request (where a
      `BigInt` may throw), calls `writeContract` and reports submission.
      `writeThrows` says whether the wallet library's `writeContract` itself
      threw; the catch reports the failure either way. */
  function Handle(op: Operation, isConnected: bool, request: Option<WriteRequest>, writeThrows: bool): HandlerResult {
    if !isConnected then HandlerResult(None, ToastError(CONNECT_FIRST))
    else match request
      case None => HandlerResult(None, ToastError(FailureMessage(op)))
      case Some(w) =>
        HandlerResult(Some(w), if writeThrows then ToastError(FailureMessage(op)) else ToastSuccess(SubmittedMessage(op)))
  }

  function IssueBond(isConnected: bool, form: BondFormData, writeThrows: bool): HandlerResult {
    Handle(Issue, isConnected, IssueRequest(form), writeThrows)
  }

  function PurchaseBond(isConnected: bool, form: TradeFormData, writeThrows: bool): HandlerResult {
    Handle(Purchase, isConnected, PurchaseRequest(form), writeThrows)
  }

  function ExecuteTrade(isConnected: bool, form: TradeFormData, writeThrows: bool): HandlerResult {
    Handle(Trade, isConnected, TradeRequest(form), writeThrows)
  }

  /** The handler of an operation, run on the form its tab edits. */
  function RunHandler(op: Operation, isConnected: bool, bondForm: BondFormData, tradeForm: TradeFormData, writeThrows: bool): HandlerResult {
    match op
    case Issue => IssueBond(isConnected, bondForm, writeThrows)
    case Purchase => PurchaseBond(isConnected, tradeForm, writeThrows)
    case Trade => ExecuteTrade(isConnected, tradeForm, writeThrows)
  }

  /** Without a connected wallet no handler calls `writeContract`, whatever
      the forms hold, and each asks the user to connect. */
  lemma NotConnectedMakesNoCall(op: Operation, bondForm: BondFormData, tradeForm: TradeFormData, writeThrows: bool)
    ensures RunHandler(op, false, bondForm, tradeForm, writeThrows) == HandlerResult(None, ToastError(CONNECT_FIRST))
  {
  }

  /** "submitted!" is reported exactly when the wallet is connected, every
      conversion succeeded and `writeContract` returned; every other run of
      a connected handler reports "Failed to ...". */
  lemma SubmittedOnlyAfterCall(op: Operation, isConnected: bool, request: Option<WriteRequest>, writeThrows: bool)
    ensures var r := Handle(op, isConnected, request, writeThrows);
      && (r.toast == ToastSuccess(SubmittedMessage(op)) <==> isConnected && request.Some? && !writeThrows)
      && (r.toast.ToastSuccess? ==> r.write == request)
      && (isConnected && (request.None? || writeThrows) ==> r.toast == ToastError(FailureMessage(op)))
      && (r.write.Some? <==> isConnected && request.Some?)
  {
  }

  /** A numeric field the `BigInt` conversion rejects makes the handler
      report "Failed to ..." without calling `writeContract`. */
  lemma IssueParseFailure(form: BondFormData, f: BondField, writeThrows: bool)
    requires f in {FaceValue, CouponRate, MaturityPeriod, TotalSupply}
    requires StringToBigInt(form.Get(f)).None?
    ensures IssueBond(true, form, writeThrows) == HandlerResult(None, ToastError("Failed to issue bond"))
  {
  }

  lemma PurchaseParseFailure(form: TradeFormData, f: TradeField, writeThrows: bool)
    requires f in {BondId, Quantity, Price}
    requires StringToBigInt(form.Get(f)).None?
    ensures PurchaseBond(true, form, writeThrows) == HandlerResult(None, ToastError("Failed to purchase bond"))
  {
  }

  lemma TradeParseFailure(form: TradeFormData, f: TradeField, writeThrows: bool)
    requires f in {BondId, Quantity, Price}
    requires StringToBigInt(form.Get(f)).None?
    ensures ExecuteTrade(true, form, writeThrows) == HandlerResult(None, ToastError("Failed to execute trade"))
  {
  }

  /** The values are passed as typed, unscaled: a decimal such as "1.0" in
      the face value or the price makes `BigInt` throw and the handler fail. */
  lemma DecimalFieldFails(op: Operation, bondForm: BondFormData, tradeForm: TradeFormData, i: int, writeThrows: bool)
    requires op == Issue ==> 0 <= i < |bondForm.faceValue| && bondForm.faceValue[i] == '.'
    requires op != Issue ==> 0 <= i < |tradeForm.price| && tradeForm.price[i] == '.'
    ensures RunHandler(op, true, bondForm, tradeForm, writeThrows).write == None
    ensures RunHandler(op, true, bondForm, tradeForm, writeThrows).toast == ToastError(FailureMessage(op))
  {
    if op == Issue {
      ForeignCharRejected(bondForm.faceValue, i);
    } else {
      ForeignCharRejected(tradeForm.price, i);
    }
  }

  /** Issue: a connected run on a form whose numeric fields hold the decimal
      text of integers calls `issueBond` on the contract, with the three
      strings unchanged, the four integers unscaled, in that order, and no
      attached value. */
  lemma {:induction false} IssueCall(name: string, symbol: string, description: string,
                                     faceValue: int, couponRate: int, maturityPeriod: int, totalSupply: int,
                                     writeThrows: bool)
    ensures var form := BondFormData(name, symbol, description, DecimalString(faceValue),
                                     DecimalString(couponRate), DecimalString(maturityPeriod), DecimalString(totalSupply));
      IssueBond(true, form, writeThrows).write
        == Some(WriteRequest(CONTRACT_ADDRESS, "issueBond",
                [Str(name), Str(symbol), Str(description),
                 Uint(faceValue), Uint(couponRate), Uint(maturityPeriod), Uint(totalSupply)],
                None))
  {
    var form := BondFormData(name, symbol, description, DecimalString(faceValue),
                             DecimalString(couponRate), DecimalString(maturityPeriod), DecimalString(totalSupply));
    DecimalRoundTrip(faceValue);
    DecimalRoundTrip(couponRate);
    DecimalRoundTrip(maturityPeriod);
    DecimalRoundTrip(totalSupply);
    IssueRequestOfParsed(form, faceValue, couponRate, maturityPeriod, totalSupply);
  }

  lemma IssueRequestOfParsed(form: BondFormData, faceValue: int, couponRate: int, maturityPeriod: int, totalSupply: int)
    requires StringToBigInt(form.faceValue) == Some(faceValue)
    requires StringToBigInt(form.couponRate) == Some(couponRate)
    requires StringToBigInt(form.maturityPeriod) == Some(maturityPeriod)
    requires StringToBigInt(form.totalSupply) == Some(totalSupply)
    ensures IssueRequest(form) == Some(WriteRequest(CONTRACT_ADDRESS, "issueBond",
      [Str(form.name), Str(form.symbol), Str(form.description),
       Uint(faceValue), Uint(couponRate), Uint(maturityPeriod), Uint(totalSupply)], None))
  {
    assert FunctionName(Issue) == "issueBond";
  }

  /** Purchase: the call is `purchaseBond(bondId, quantity, price)` and the
      attached value is the exact product quantity * price. */
  lemma {:induction false} PurchaseCall(bondId: int, quantity: int, price: int, seller: string, writeThrows: bool)
    ensures var form := TradeFormData(DecimalString(bondId), DecimalString(quantity), DecimalString(price), seller);
      PurchaseBond(true, form, writeThrows).write
        == Some(WriteRequest(CONTRACT_ADDRESS, "purchaseBond",
                [Uint(bondId), Uint(quantity), Uint(price)], Some(quantity * price)))
  {
    var form := TradeFormData(DecimalString(bondId), DecimalString(quantity), DecimalString(price), seller);
    DecimalRoundTrip(bondId);
    DecimalRoundTrip(quantity);
    DecimalRoundTrip(price);
    PurchaseRequestOfParsed(form, bondId, quantity, price);
  }

  lemma PurchaseRequestOfParsed(form: TradeFormData, bondId: int, quantity: int, price: int)
    requires StringToBigInt(form.bondId) == Some(bondId)
    requires StringToBigInt(form.quantity) == Some(quantity)
    requires StringToBigInt(form.price) == Some(price)
    ensures PurchaseRequest(form) == Some(WriteRequest(CONTRACT_ADDRESS, "purchaseBond",
      [Uint(bondId), Uint(quantity), Uint(price)], Some(quantity * price)))
  {
    assert FunctionName(Purchase) == "purchaseBond";
  }

  /** Trade: the call is `executeTrade(bondId, quantity, price, seller)`,
      the seller text passed through whatever it is, and no value. */
  lemma {:induction false} TradeCall(bondId: int, quantity: int, price: int, seller: string, writeThrows: bool)
    ensures var form := TradeFormData(DecimalString(bondId), DecimalString(quantity), DecimalString(price), seller);
      ExecuteTrade(true, form, writeThrows).write
        == Some(WriteRequest(CONTRACT_ADDRESS, "executeTrade",
                [Uint(bondId), Uint(quantity), Uint(price), Address(seller)], None))
  {
    var form := TradeFormData(DecimalString(bondId), DecimalString(quantity), DecimalString(price), seller);
    DecimalRoundTrip(bondId);
    DecimalRoundTrip(quantity);
    DecimalRoundTrip(price);
    TradeRequestOfParsed(form, bondId, quantity, price);
  }

  lemma TradeRequestOfParsed(form: TradeFormData, bondId: int, quantity: int, price: int)
    requires StringToBigInt(form.bondId) == Some(bondId)
    requires StringToBigInt(form.quantity) == Some(quantity)
    requires StringToBigInt(form.price) == Some(price)
    ensures TradeRequest(form) == Some(WriteRequest(CONTRACT_ADDRESS, "executeTrade",
      [Uint(bondId), Uint(quantity), Uint(price), Address(form.seller)], None))
  {
    assert FunctionName(Trade) == "executeTrade";
  }

  /** Whatever the form holds, a request goes to the one contract, names
      the operation's own function and carries its number of arguments;
      only a purchase attaches a value, the product of its second and third
      arguments, and a trade's last argument is the seller text. */
  lemma IssueRequestShape(form: BondFormData)
    ensures var q := IssueRequest(form);
      q.Some? ==>
        q.value.address == CONTRACT_ADDRESS && q.value.functionName == FunctionName(Issue)
        && |q.value.args| == Arity(Issue) && q.value.value.None?
  {
  }

  lemma PurchaseRequestShape(form: TradeFormData)
    ensures var q := PurchaseRequest(form);
      q.Some? ==>
        q.value.address == CONTRACT_ADDRESS && q.value.functionName == FunctionName(Purchase)
        && |q.value.args| == Arity(Purchase) && q.value.value.Some?
        && q.value.value.value == q.value.args[1].n * q.value.args[2].n
  {
  }

  lemma TradeRequestShape(form: TradeFormData)
    ensures var q := TradeRequest(form);
      q.Some? ==>
        q.value.address == CONTRACT_ADDRESS && q.value.functionName == FunctionName(Trade)
        && |q.value.args| == Arity(Trade) && q.value.value.None?
        && q.value.args[3] == Address(form.seller)
  {
  }

  function Arity(op: Operation): nat {
    match op
    case Issue => 7
    case Purchase => 3
    case Trade => 4
  }

  /** The Purchase handler never reads the seller field. */
  lemma PurchaseIgnoresSeller(isConnected: bool, form: TradeFormData, v: string, writeThrows: bool)
    ensures PurchaseBond(isConnected, form.With(Seller, v), writeThrows) == PurchaseBond(isConnected, form, writeThrows)
  {
  }

  /** A form of the Issue tab as a user would fill it. The four numbers
      arrive exactly as typed, with no scaling. */
  lemma IssueExample()
    ensures IssueBond(true, BondFormData("Corp24", "CB24", "test", "1000", "5", "365", "1000"), false)
      == HandlerResult(
           Some(WriteRequest(CONTRACT_ADDRESS, "issueBond",
             [Str("Corp24"), Str("CB24"), Str("test"), Uint(1000), Uint(5), Uint(365), Uint(1000)], None)),
           ToastSuccess("Bond issuance transaction submitted!"))
  {
    assert DecimalString(1000) == "1000";
    assert DecimalString(5) == "5";
    assert DecimalString(365) == "365";
    IssueCall("Corp24", "CB24", "test", 1000, 5, 365, 1000, false);
  }

  /** Typing the price placeholder's example, "1.0", makes the purchase
      fail: it is not an integer. */
  lemma PurchaseExampleFractionalPrice()
    ensures PurchaseBond(true, TradeFormData("0", "10", "1.0", ""), false)
      == HandlerResult(None, ToastError("Failed to purchase bond"))
  {
    DecimalFieldFails(Purchase, EMPTY_BOND_FORM, TradeFormData("0", "10", "1.0", ""), 1, false);
  }

  // -----------------------------------------------------------------------
  // Per-operation status and what the submit buttons show.

  /** What the two hooks of one operation report: `isPending` of
      useWriteContract, its `data` (the transaction hash) and `isLoading` of
      useWaitForTransactionReceipt. */
  datatype SlotStatus = SlotStatus(isPending: bool, hash: Option<string>, isConfirming: bool)

  datatype Slots = Slots(issue: SlotStatus, purchase: SlotStatus, trade: SlotStatus)
  {
    function Get(op: Operation): SlotStatus {
      match op
      case Issue => issue
      case Purchase => purchase
      case Trade => trade
    }
  }

  /** The idle label of a submit button, also the badge of its status row. */
  function OperationName(op: Operation): string {
    match op
    case Issue => "Issue Bond"
    case Purchase => "Purchase Bond"
    case Trade => "Execute Trade"
  }

  function PendingLabel(op: Operation): string {
    match op
    case Issue => "Issuing Bond..."
    case Purchase => "Purchasing..."
    case Trade => "Executing Trade..."
  }

  const CONFIRMING: string := "Confirming..."

  datatype ButtonView = ButtonView(disabled: bool, spinner: bool, text: string)

  /** The submit button of an operation, a projection of its own slot. */
  function SubmitButton(op: Operation, slots: Slots): (b: ButtonView)
    ensures b.disabled <==> slots.Get(op).isPending || slots.Get(op).isConfirming
    ensures b.spinner <==> b.disabled
  {
    var s := slots.Get(op);
    if s.isPending || s.isConfirming then
      ButtonView(true, true, if s.isPending then PendingLabel(op) else CONFIRMING)
    else
      ButtonView(false, false, OperationName(op))
  }

  /** The label tells the slot's phase apart: the operation name exactly
      when idle, the pending text exactly when the write is pending, and
      "Confirming..." exactly when only the receipt is awaited. */
  lemma ButtonLabelMeaning(op: Operation, slots: Slots)
    ensures var b := SubmitButton(op, slots); var s := slots.Get(op);
      && (b.text == OperationName(op) <==> !s.isPending && !s.isConfirming)
      && (b.text == PendingLabel(op) <==> s.isPending)
      && (b.text == CONFIRMING <==> !s.isPending && s.isConfirming)
  {
  }

  /** A button depends on its own slot only: the other two operations being
      in flight changes nothing about it. */
  lemma SlotsIndependent(op: Operation, a: Slots, b: Slots)
    requires a.Get(op) == b.Get(op)
    ensures SubmitButton(op, a) == SubmitButton(op, b)
  {
  }

  /** A click on a disabled button does nothing; otherwise it runs the
      handler. */
  function Click(op: Operation, slots: Slots, isConnected: bool, bondForm: BondFormData, tradeForm: TradeFormData, writeThrows: bool): (r: Option<HandlerResult>)
    ensures r.None? <==> SubmitButton(op, slots).disabled
    ensures r.Some? ==> r.value == RunHandler(op, isConnected, bondForm, tradeForm, writeThrows)
  {
    if SubmitButton(op, slots).disabled then None
    else Some(RunHandler(op, isConnected, bondForm, tradeForm, writeThrows))
  }

  /** The disabled button is the only guard against a second submission:
      while a slot is pending or confirming no click on it reaches
      `writeContract`, and the other two slots are not held up by it. */
  lemma BusySlotBlocksOnlyItself(op: Operation, other: Operation, slots: Slots, isConnected: bool,
                                 bondForm: BondFormData, tradeForm: TradeFormData, writeThrows: bool)
    requires slots.Get(op).isPending || slots.Get(op).isConfirming
    requires other != op && !slots.Get(other).isPending && !slots.Get(other).isConfirming
    ensures Click(op, slots, isConnected, bondForm, tradeForm, writeThrows) == None
    ensures Click(other, slots, isConnected, bondForm, tradeForm, writeThrows)
      == Some(RunHandler(other, isConnected, bondForm, tradeForm, writeThrows))
  {
  }

  // -----------------------------------------------------------------------
  // The transaction status panel.

  function Rank(op: Operation): nat {
    match op
    case Issue => 0
    case Purchase => 1
    case Trade => 2
  }

  datatype StatusRow = StatusRow(op: Operation, hash: string)

  predicate StatusPanelShown(slots: Slots) {
    Present(slots.issue.hash) || Present(slots.purchase.hash) || Present(slots.trade.hash)
  }

  function RowIf(op: Operation, h: Option<string>): (r: seq<StatusRow>)
    ensures |r| == (if Present(h) then 1 else 0)
    ensures forall i :: 0 <= i < |r| ==> r[i] == StatusRow(op, h.value)
  {
    if Present(h) then [StatusRow(op, h.value)] else []
  }

  /** The Purchase and Trade rows of the status panel, in that order. */
  function LaterRows(slots: Slots): (rows: seq<StatusRow>)
    ensures forall i :: 0 <= i < |rows| ==>
      rows[i].op != Issue && Present(slots.Get(rows[i].op).hash) && rows[i].hash == slots.Get(rows[i].op).hash.value
    ensures Present(slots.purchase.hash) ==> |rows| > 0 && rows[0] == StatusRow(Purchase, slots.purchase.hash.value)
    ensures Present(slots.trade.hash) ==> |rows| > 0 && rows[|rows| - 1] == StatusRow(Trade, slots.trade.hash.value)
    ensures forall i, j :: 0 <= i < j < |rows| ==> rows[i].op == Purchase && rows[j].op == Trade
    ensures rows != [] <==> Present(slots.purchase.hash) || Present(slots.trade.hash)
  {
    RowIf(Purchase, slots.purchase.hash) + RowIf(Trade, slots.trade.hash)
  }

  /** The rows of the status panel: one per present hash, carrying that
      hash, ordered Issue, Purchase, Trade. */
  function StatusRows(slots: Slots): (rows: seq<StatusRow>)
    ensures forall i :: 0 <= i < |rows| ==>
      Present(slots.Get(rows[i].op).hash) && rows[i].hash == slots.Get(rows[i].op).hash.value
    ensures forall op :: Present(slots.Get(op).hash) ==> StatusRow(op, slots.Get(op).hash.value) in rows
    ensures forall i, j :: 0 <= i < j < |rows| ==> Rank(rows[i].op) < Rank(rows[j].op)
    ensures StatusPanelShown(slots) <==> rows != []
  {
    var later := LaterRows(slots);
    if Present(slots.issue.hash) then
      var rows := [StatusRow(Issue, slots.issue.hash.value)] + later;
      assert forall i :: 1 <= i < |rows| ==> rows[i] == later[i - 1];
      rows
    else
      later
  }

  // -----------------------------------------------------------------------
  // The component's own state.

  /** What the component renders as a whole: the connect card alone, or
      the active tab's form with the status panel's rows below it. */
  datatype Screen = ConnectPrompt | OperationForm(tab: Operation, status: seq<StatusRow>)

  /** The status panel is on screen: the connected view, with a row. */
  predicate PanelShown(s: Screen) {
    s.OperationForm? && s.status != []
  }

  /** The early return for a disconnected wallet shows only the connect
      card, so hashes the hooks still hold are not shown; the connected
      view shows the active tab and, below it, the status panel. */
  function ScreenOf(isConnected: bool, activeTab: Operation, slots: Slots): (s: Screen)
    ensures s.ConnectPrompt? <==> !isConnected
    ensures s.OperationForm? ==> s.tab == activeTab && s.status == StatusRows(slots)
    ensures PanelShown(s) <==> isConnected && StatusPanelShown(slots)
  {
    if isConnected then OperationForm(activeTab, StatusRows(slots)) else ConnectPrompt
  }

  /** The state held with `useState`: the active tab and the two form
      records, each replaced whole on every keystroke. */
  class ContractInteraction {
    var activeTab: Operation
    var bondForm: BondFormData
    var tradeForm: TradeFormData

    constructor ()
      ensures activeTab == Issue && bondForm == EMPTY_BOND_FORM && tradeForm == EMPTY_TRADE_FORM
    {
      activeTab := Issue;
      bondForm := EMPTY_BOND_FORM;
      tradeForm := EMPTY_TRADE_FORM;
    }

    method SelectTab(tab: Operation)
      modifies this
      ensures activeTab == tab
      ensures bondForm == old(bondForm) && tradeForm == old(tradeForm)
    {
      activeTab := tab;
    }

    /** `setBondForm({...bondForm, f: v})` from the input of field `f`,
        which exists only while the Issue tab is shown. */
    method EditBondField(f: BondField, v: string)
      requires activeTab == Issue
      modifies this
      ensures bondForm == old(bondForm).With(f, v)
      ensures bondForm.Get(f) == v && forall g :: g != f ==> bondForm.Get(g) == old(bondForm).Get(g)
      ensures activeTab == old(activeTab) && tradeForm == old(tradeForm)
    {
      bondForm := bondForm.With(f, v);
    }

    /** `setTradeForm({...tradeForm, f: v})` from an input the active tab
        renders, on the Purchase tab or the Trade tab alike: both tabs edit
        this one record. */
    method EditTradeField(f: TradeField, v: string)
      requires f in VisibleTradeFields(activeTab)
      modifies this
      ensures tradeForm == old(tradeForm).With(f, v)
      ensures tradeForm.Get(f) == v && forall g :: g != f ==> tradeForm.Get(g) == old(tradeForm).Get(g)
      ensures activeTab == old(activeTab) && bondForm == old(bondForm)
    {
      tradeForm := tradeForm.With(f, v);
    }


    /** handleIssueBond, step by step on the current bond form. */
    method HandleIssueBond(isConnected: bool, writeThrows: bool) returns (r: HandlerResult)
      ensures r == IssueBond(isConnected, bondForm, writeThrows)
      ensures r.toast.ToastSuccess? ==> isConnected && r.write.Some? && !writeThrows
    {
      if !isConnected {
        return HandlerResult(None, ToastError(CONNECT_FIRST));
      }
      var faceValue := StringToBigInt(bondForm.faceValue);
      var couponRate := StringToBigInt(bondForm.couponRate);
      var maturityPeriod := StringToBigInt(bondForm.maturityPeriod);
      var totalSupply := StringToBigInt(bondForm.totalSupply);
      if faceValue.None? || couponRate.None? || maturityPeriod.None? || totalSupply.None? {
        return HandlerResult(None, ToastError(FailureMessage(Issue)));
      }
      var w := WriteRequest(CONTRACT_ADDRESS, FunctionName(Issue),
        [Str(bondForm.name), Str(bondForm.symbol), Str(bondForm.description),
         Uint(faceValue.value), Uint(couponRate.value), Uint(maturityPeriod.value), Uint(totalSupply.value)],
        None);
      if writeThrows {
        r := HandlerResult(Some(w), ToastError(FailureMessage(Issue)));
      } else {
        r := HandlerResult(Some(w), ToastSuccess(SubmittedMessage(Issue)));
      }
    }

    /** handlePurchaseBond, step by step on the shared trade form. */
    method HandlePurchaseBond(isConnected: bool, writeThrows: bool) returns (r: HandlerResult)
      ensures r == PurchaseBond(isConnected, tradeForm, writeThrows)
      ensures r.write.Some? ==>
        var w := r.write.value;
        |w.args| == 3 && w.args[1].Uint? && w.args[2].Uint? && w.value == Some(w.args[1].n * w.args[2].n)
    {
      if !isConnected {
        return HandlerResult(None, ToastError(CONNECT_FIRST));
      }
      var bondId := StringToBigInt(tradeForm.bondId);
      var quantity := StringToBigInt(tradeForm.quantity);
      var price := StringToBigInt(tradeForm.price);
      if bondId.None? || quantity.None? || price.None? {
        return HandlerResult(None, ToastError(FailureMessage(Purchase)));
      }
      var w := WriteRequest(CONTRACT_ADDRESS, FunctionName(Purchase),
        [Uint(bondId.value), Uint(quantity.value), Uint(price.value)],
        Some(quantity.value * price.value));
      if writeThrows {
        r := HandlerResult(Some(w), ToastError(FailureMessage(Purchase)));
      } else {
        r := HandlerResult(Some(w), ToastSuccess(SubmittedMessage(Purchase)));
      }
    }

    /** handleExecuteTrade, step by step on the shared trade form. */
    method HandleExecuteTrade(isConnected: bool, writeThrows: bool) returns (r: HandlerResult)
      ensures r == ExecuteTrade(isConnected, tradeForm, writeThrows)
      ensures r.write.Some? ==> r.write.value.args[3] == Address(tradeForm.seller) && r.write.value.value.None?
    {
      if !isConnected {
        return HandlerResult(None, ToastError(CONNECT_FIRST));
      }
      var bondId := StringToBigInt(tradeForm.bondId);
      var quantity := StringToBigInt(tradeForm.quantity);
      var price := StringToBigInt(tradeForm.price);
      if bondId.None? || quantity.None? || price.None? {
        return HandlerResult(None, ToastError(FailureMessage(Trade)));
      }
      var w := WriteRequest(CONTRACT_ADDRESS, FunctionName(Trade),
        [Uint(bondId.value), Uint(quantity.value), Uint(price.value), Address(tradeForm.seller)],
        None);
      if writeThrows {
        r := HandlerResult(Some(w), ToastError(FailureMessage(Trade)));
      } else {
        r := HandlerResult(Some(w), ToastSuccess(SubmittedMessage(Trade)));
      }
    }
  }
}

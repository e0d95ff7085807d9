/**
 * The tip screen (app/tip-worker.tsx): a preset or custom amount, checked
 * against the balance, then deducted and recorded as a negative tip in the
 * history.
 */
module Tip {
  import opened Wrappers
  import opened Balance
  import opened History

  /** A JavaScript number as `parseFloat` can return it. */
  datatype JsNumber = NaN | Finite(value: real) | PosInfinity | NegInfinity

  const TipPresets: seq<real> := [1.0, 2.0, 5.0, 10.0, 20.0]
  const InitialSelection: Option<real> := Some(1.0)
  const InvalidAmountMessage := "Please enter a valid tip amount"
  const InsufficientMessage := "Insufficient balance"

  /** A press on one of the amount buttons. */
  datatype TipChoice = Preset(amount: real) | Custom

  /** `selectedAmount || parseFloat(customAmount)`: a selected (non-zero) preset wins over the custom text. */
  function TipAmount(selected: Option<real>, parsed: JsNumber): (n: JsNumber)
    ensures selected.Some? && selected.value != 0.0 ==> n == Finite(selected.value)
    ensures !(selected.Some? && selected.value != 0.0) ==> n == parsed
  {
    if selected.Some? && selected.value != 0.0 then Finite(selected.value) else parsed
  }

  /** The outcome of the two checks of `handleSendTip`. */
  datatype TipVerdict = InvalidAmount | Insufficient | Send(amount: real)

  /**
   * `!tipAmount || tipAmount <= 0 || isNaN(tipAmount)` rejects the amount,
   * then `tipAmount > balance` does; whatever passes both is sent.
   */
  function CheckTip(tipAmount: JsNumber, balance: real): (v: TipVerdict)
    ensures v.Send? <==> tipAmount.Finite? && 0.0 < tipAmount.value <= balance
    ensures v.Send? ==> v.amount == tipAmount.value
    ensures v.InvalidAmount? <==> tipAmount.NaN? || tipAmount.NegInfinity? || (tipAmount.Finite? && tipAmount.value <= 0.0)
  {
    match tipAmount
    case NaN => InvalidAmount
    case NegInfinity => InvalidAmount
    case PosInfinity => Insufficient
    case Finite(a) =>
      if a <= 0.0 then InvalidAmount
      else if a > balance then Insufficient
      else Send(a)
  }

  /** The toast of a verdict that sends nothing. */
  function RefusalMessage(v: TipVerdict): (m: string)
    requires !v.Send?
    ensures m == InvalidAmountMessage <==> v.InvalidAmount?
    ensures m == InsufficientMessage <==> v.Insufficient?
  {
    if v.InvalidAmount? then InvalidAmountMessage else InsufficientMessage
  }

  /** Every preset is a valid amount: it is sent exactly when the balance covers it. */
  lemma PresetsValid(p: real, balance: real)
    requires p in TipPresets
    ensures CheckTip(TipAmount(Some(p), NaN), balance) == (if p <= balance then Send(p) else Insufficient)
  {
  }

  /** A selected preset makes the custom text irrelevant. */
  lemma PresetIgnoresCustom(p: real, parsed: JsNumber, balance: real)
    requires p in TipPresets
    ensures CheckTip(TipAmount(Some(p), parsed), balance) == CheckTip(TipAmount(Some(p), NaN), balance)
  {
  }

  /**
   * A tip that is sent never meets the clamp of `deductBalance`: the balance
   * drops by exactly the amount and stays non-negative.
   */
  lemma SentTipNeverClamps(tipAmount: JsNumber, balance: real)
    requires CheckTip(tipAmount, balance).Send?
    ensures var a := CheckTip(tipAmount, balance).amount;
            a > 0.0 && Deducted(balance, a) == balance - a && Deducted(balance, a) >= 0.0
  {
  }

  /** `getTipAmount`: the selected preset, else the parsed custom text when there is some, else 1. */
  function DisplayedAmount(selected: Option<real>, customAmount: string, parsed: JsNumber): (n: JsNumber)
    ensures selected.Some? && selected.value != 0.0 ==> n == Finite(selected.value)
    ensures !(selected.Some? && selected.value != 0.0) && customAmount != "" ==> n == parsed
    ensures !(selected.Some? && selected.value != 0.0) && customAmount == "" ==> n == Finite(1.0)
  {
    if selected.Some? && selected.value != 0.0 then Finite(selected.value)
    else if customAmount != "" then parsed
    else Finite(1.0)
  }

  /** The displayed amount is the one a send checks, except that an empty custom text shows 1 yet is refused. */
  lemma DisplayedIsSent(selected: Option<real>, customAmount: string, parsed: JsNumber)
    requires customAmount != "" || (selected.Some? && selected.value != 0.0)
    ensures DisplayedAmount(selected, customAmount, parsed) == TipAmount(selected, parsed)
  {
  }

  /** The tip screen's state; the worker comes from the route parameters. */
  class Screen {
    const workerName: string
    const workerUsername: string
    const workerAvatar: string
    var selectedAmount: Option<real>
    var customAmount: string
    var showToast: bool
    var toastMessage: string

    constructor(workerName: string, workerUsername: string, workerAvatar: string)
      ensures this.workerName == workerName && this.workerUsername == workerUsername
      ensures this.workerAvatar == workerAvatar
      ensures selectedAmount == InitialSelection && customAmount == "" && !showToast && toastMessage == ""
    {
      this.workerName := workerName;
      this.workerUsername := workerUsername;
      this.workerAvatar := workerAvatar;
      selectedAmount := InitialSelection;
      customAmount := "";
      showToast, toastMessage := false, "";
    }

    /** `handleTipAmountSelect`: a preset clears the custom text; 'custom' keeps it and clears the selection. */
    method SelectAmount(choice: TipChoice)
      modifies this
      ensures choice.Preset? ==> selectedAmount == Some(choice.amount) && customAmount == ""
      ensures choice.Custom? ==> selectedAmount.None? && customAmount == old(customAmount)
      ensures showToast == old(showToast) && toastMessage == old(toastMessage)
    {
      if choice.Custom? {
        selectedAmount := None;
      } else {
        selectedAmount := Some(choice.amount);
        customAmount := "";
      }
    }

    /** `setCustomAmount`. */
    method CustomChange(text: string)
      modifies this
      ensures customAmount == text && selectedAmount == old(selectedAmount)
      ensures showToast == old(showToast) && toastMessage == old(toastMessage)
    {
      customAmount := text;
    }

    /**
     * `handleSendTip`, with `parseFloat` and `toFixed(2)` as parameters and
     * the clock's id and date for the new transaction.
     */
    method SendTip(parseFloat: string -> JsNumber, toFixed2: real -> string,
                   wallet: BalanceStore, history: HistoryStore, now: string, today: string)
      returns (verdict: TipVerdict)
      modifies this, wallet, history
      ensures verdict == CheckTip(TipAmount(old(selectedAmount), parseFloat(old(customAmount))), old(wallet.balance))
      ensures showToast
      ensures !verdict.Send? ==> toastMessage == RefusalMessage(verdict)
                                 && wallet.balance == old(wallet.balance) && history.transactions == old(history.transactions)
      ensures verdict.Send? ==>
                && wallet.balance == old(wallet.balance) - verdict.amount
                && history.transactions
                   == [Stamp(TxDraft(workerName, workerUsername, -verdict.amount, workerAvatar, Tip), now, today)]
                      + old(history.transactions)
                && toastMessage == "$" + toFixed2(verdict.amount) + " tip sent to " + workerName + "!"
      ensures selectedAmount == old(selectedAmount) && customAmount == old(customAmount)
    {
      var tipAmount := TipAmount(selectedAmount, parseFloat(customAmount));
      if tipAmount.NaN? || tipAmount.NegInfinity? || (tipAmount.Finite? && tipAmount.value <= 0.0) {
        verdict := InvalidAmount;
        toastMessage := InvalidAmountMessage;
        showToast := true;
        return;
      }
      if tipAmount.PosInfinity? || tipAmount.value > wallet.balance {
        verdict := Insufficient;
        toastMessage := InsufficientMessage;
        showToast := true;
        return;
      }
      var amount := tipAmount.value;
      verdict := Send(amount);
      wallet.Deduct(amount);
      history.AddTransaction(TxDraft(workerName, workerUsername, -amount, workerAvatar, Tip), now, today);
      toastMessage := "$" + toFixed2(amount) + " tip sent to " + workerName + "!";
      showToast := true;
    }
  }
}

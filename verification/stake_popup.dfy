/** The staking dialog of `src/components/ui/stake-popup.tsx`: its form
    schema, the Max button, submit and close, and what the user can change.

    Amounts are `real`; the component holds them as JavaScript numbers (binary
    floating point), and the balances it receives as strings read with
    `parseFloat`, which this model takes as already-read numbers. */
module StakePopup {
  import opened Options

  const MinAmount: real := 0.001

  /** The form's three fields. `action` is a string because the schema is what
      restricts it to "stake" or "pull". */
  datatype FormValues = FormValues(action: string, amount: real, tokenAddress: string)

  /** The form's default values (`reset()` returns to these). */
  const DefaultValues := FormValues("stake", 0.0, "")

  /** The schema's complaints, in field order. */
  datatype Issue = ActionInvalid | AmountNotPositive | AmountBelowMinimum | TokenAddressMissing

  /** `stakingSchema`: every failing check contributes its issue; the form is
      accepted when there are none. */
  function Validate(v: FormValues): (issues: seq<Issue>)
    ensures ActionInvalid in issues <==> v.action != "stake" && v.action != "pull"
    ensures AmountNotPositive in issues <==> v.amount <= 0.0
    ensures AmountBelowMinimum in issues <==> v.amount < MinAmount
    ensures TokenAddressMissing in issues <==> |v.tokenAddress| < 1
    ensures issues == [] <==>
              (v.action == "stake" || v.action == "pull") && v.amount > 0.0 && v.amount >= MinAmount
              && |v.tokenAddress| >= 1
  {
    (if v.action == "stake" || v.action == "pull" then [] else [ActionInvalid])
    + (if v.amount > 0.0 then [] else [AmountNotPositive])
    + (if v.amount >= MinAmount then [] else [AmountBelowMinimum])
    + (if |v.tokenAddress| >= 1 then [] else [TokenAddressMissing])
  }

  /** The positivity check is implied by the minimum: an amount passes both
      exactly when it is at least 0.001. */
  lemma AmountChecksCollapse(amount: real)
    ensures (amount > 0.0 && amount >= MinAmount) <==> amount >= MinAmount
  {
  }

  /** The dialog: form values and the processing flag. */
  datatype Popup = Popup(form: FormValues, isProcessing: bool)

  const InitialPopup := Popup(DefaultValues, false)

  /** The result of a user action: the new dialog state, what `onStake` was
      called with (if it was), and whether `onClose` was called. */
  datatype Outcome = Outcome(popup: Popup, stakedWith: Option<FormValues>, closed: bool)

  /** `handleStakeAction` once `onStake` has settled: processing ends either
      way; only a success resets the form and closes the dialog. */
  function HandleStakeAction(p: Popup, data: FormValues, succeeded: bool): (o: Outcome)
    ensures !o.popup.isProcessing
    ensures o.stakedWith == Some(data)
    ensures o.closed <==> succeeded
    ensures succeeded ==> o.popup.form == DefaultValues
    ensures !succeeded ==> o.popup.form == p.form
  {
    if succeeded then Outcome(Popup(DefaultValues, false), Some(data), true)
    else Outcome(Popup(p.form, false), Some(data), false)
  }

  /** Submitting: the schema runs first, and `onStake` is reached only when
      every check passes. */
  function Submit(p: Popup, succeeded: bool): (o: Outcome)
    ensures o.stakedWith.Some? <==> Validate(p.form) == []
    ensures o.stakedWith.Some? ==> o.stakedWith.value == p.form
    ensures Validate(p.form) != [] ==> o == Outcome(p, None, false)
  {
    if Validate(p.form) == [] then HandleStakeAction(p, p.form, succeeded)
    else Outcome(p, None, false)
  }

  /** `handleClose`: always resets the form, clears processing and closes. */
  function HandleClose(p: Popup): (o: Outcome)
    ensures o.popup == InitialPopup
    ensures o.closed && o.stakedWith.None?
  {
    Outcome(Popup(DefaultValues, false), None, true)
  }

  /** `setMaxAmount`: the available balance when staking, the staked balance
      otherwise; nothing else changes. */
  function SetMaxAmount(p: Popup, available: real, staked: real): (p': Popup)
    ensures p'.form.action == "stake" ==> p'.form.amount == available
    ensures p'.form.action != "stake" ==> p'.form.amount == staked
    ensures p'.form.action == p.form.action && p'.form.tokenAddress == p.form.tokenAddress
    ensures p'.isProcessing == p.isProcessing
  {
    p.(form := p.form.(amount := if p.form.action == "stake" then available else staked))
  }

  /** The submit button's `disabled` expression, with `!amount` read as
      "amount is zero". */
  function SubmitDisabled(p: Popup): (r: bool)
    ensures r <==> p.isProcessing || p.form.amount <= 0.0
  {
    p.isProcessing || p.form.amount == 0.0 || p.form.amount <= 0.0
  }

  /** The transaction preview is shown for a positive amount. */
  function PreviewShown(p: Popup): (r: bool)
    ensures r <==> !SubmitDisabled(p.(isProcessing := false))
  {
    p.form.amount > 0.0
  }

  /** What the user can do in the dialog. The two radio buttons set the action,
      the number field sets the amount; no field is bound to `tokenAddress`. */
  datatype UiEvent =
    | ChooseStake
    | ChoosePull
    | EnterAmount(amount: real)
    | PressMax(available: real, staked: real)
    | PressSubmit(succeeded: bool)
    | PressClose

  function Apply(p: Popup, e: UiEvent): Popup {
    match e
    case ChooseStake => p.(form := p.form.(action := "stake"))
    case ChoosePull => p.(form := p.form.(action := "pull"))
    case EnterAmount(x) => p.(form := p.form.(amount := x))
    case PressMax(a, s) => SetMaxAmount(p, a, s)
    case PressSubmit(ok) => Submit(p, ok).popup
    case PressClose => HandleClose(p).popup
  }

  function ApplyAll(p: Popup, es: seq<UiEvent>): Popup
    decreases |es|
  {
    if |es| == 0 then p else ApplyAll(Apply(p, es[0]), es[1..])
  }

  /** Whatever the user does, the token address stays empty. */
  lemma {:induction false} TokenAddressStaysEmpty(p: Popup, es: seq<UiEvent>)
    requires p.form.tokenAddress == ""
    ensures ApplyAll(p, es).form.tokenAddress == ""
    decreases |es|
  {
    if |es| > 0 {
      TokenAddressStaysEmpty(Apply(p, es[0]), es[1..]);
    }
  }

  /** Hence, as written, no sequence of user actions makes the dialog call
      `onStake`: the schema always rejects the empty token address. */
  lemma SubmitNeverReachesOnStake(es: seq<UiEvent>, succeeded: bool)
    ensures Submit(ApplyAll(InitialPopup, es), succeeded).stakedWith.None?
    ensures TokenAddressMissing in Validate(ApplyAll(InitialPopup, es).form)
  {
    TokenAddressStaysEmpty(InitialPopup, es);
  }
}

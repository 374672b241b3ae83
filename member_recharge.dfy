/**
 * The member recharge form: a choice of a preset or a custom amount, a validation guard
 * on submission, a simulated payment that completes after a delay, and the success view
 * that then replaces the form.
 */
module MemberRecharge {

  /** The preset amount buttons. */
  const Presets: seq<string> := ["499", "799", "999"]

  /** The selection value of the custom-amount button. */
  const CustomChoice: string := "custom"

  /** The amount a submission uses: the typed amount when custom is selected, else the selection. */
  function Effective(selected: string, custom: string): (amount: string)
    ensures selected == CustomChoice ==> amount == custom
    ensures selected in Presets ==> amount == selected
    ensures selected == "" ==> amount == ""
  {
    if selected == CustomChoice then custom else selected
  }

  /** The validation guard of `handleRecharge` as written: two emptiness tests. */
  function GuardRejects(selected: string, custom: string): (rejected: bool)
    ensures selected in Presets ==> !rejected
    ensures selected == "" ==> rejected
    ensures selected == CustomChoice ==> (rejected <==> custom == "")
  {
    Effective(selected, custom) == "" || (selected == CustomChoice && custom == "")
  }

  /**
   * The second test of the guard adds nothing: a submission is rejected exactly when the
   * effective amount is empty, and any non-empty amount, '0' included, passes.
   */
  lemma GuardIsEmptiness(selected: string, custom: string)
    ensures GuardRejects(selected, custom) <==> Effective(selected, custom) == ""
  {
  }

  /** The notifications the form raises. */
  datatype Toast = InvalidAmount | RechargeSuccessful(amount: string)

  /**
   * The form's state. `pending` holds the amounts of submissions whose completion timer
   * has not fired yet; `toasts` is the log of notifications shown.
   */
  class RechargeForm {
    var selectedAmount: string
    var customAmount: string
    var isProcessing: bool
    var isSuccess: bool
    var pending: seq<string>
    var toasts: seq<Toast>

    constructor ()
      ensures selectedAmount == "" && customAmount == ""
      ensures !isProcessing && !isSuccess
      ensures pending == [] && toasts == []
      ensures Valid()
    {
      selectedAmount := "";
      customAmount := "";
      isProcessing := false;
      isSuccess := false;
      pending := [];
      toasts := [];
    }

    /** At most one submission is in flight, exactly while processing, and never after success. */
    ghost predicate Valid()
      reads this
    {
      |pending| <= 1 && (isProcessing <==> pending != []) && !(isProcessing && isSuccess)
    }

    function EffectiveAmount(): string
      reads this
    {
      Effective(selectedAmount, customAmount)
    }

    /** The pay button is disabled without a selection and while a payment is processing. */
    function PayEnabled(): (enabled: bool)
      reads this
      ensures enabled <==> selectedAmount != "" && !isProcessing
    {
      !(selectedAmount == "" || isProcessing)
    }

    /** The custom amount field accepts input only while custom is selected. */
    function CustomInputEnabled(): (enabled: bool)
      reads this
      ensures enabled <==> selectedAmount == CustomChoice
    {
      !(selectedAmount != CustomChoice)
    }

    /** The amount in the summary: the effective amount, or '0' when it is empty. */
    function SummaryAmount(): (shown: string)
      reads this
      ensures shown != ""
      ensures EffectiveAmount() != "" ==> shown == EffectiveAmount()
      ensures EffectiveAmount() == "" ==> shown == "0"
    {
      if selectedAmount == CustomChoice then (if customAmount == "" then "0" else customAmount)
      else (if selectedAmount == "" then "0" else selectedAmount)
    }

    /** After success the form is replaced by the success view. */
    function ShowsSuccessView(): bool
      reads this
    {
      isSuccess
    }

    /** A preset button: select it and clear the custom amount. */
    method ChoosePreset(amount: string)
      requires amount in Presets && !isSuccess
      modifies this`selectedAmount, this`customAmount
      ensures selectedAmount == amount && customAmount == ""
      ensures !CustomInputEnabled() && EffectiveAmount() == amount
    {
      selectedAmount := amount;
      customAmount := "";
    }

    /** The custom button: select custom and keep whatever was typed. */
    method ChooseCustom()
      requires !isSuccess
      modifies this`selectedAmount
      ensures selectedAmount == CustomChoice
      ensures CustomInputEnabled() && EffectiveAmount() == customAmount
    {
      selectedAmount := CustomChoice;
    }

    /** The custom field's change handler: store the text and force the custom selection. */
    method OnCustomChange(value: string)
      modifies this`selectedAmount, this`customAmount
      ensures customAmount == value && selectedAmount == CustomChoice
      ensures EffectiveAmount() == value
    {
      customAmount := value;
      selectedAmount := CustomChoice;
    }

    /** Typing into the custom field: a disabled field ignores the input. */
    method TypeCustom(value: string)
      requires !isSuccess
      modifies this`selectedAmount, this`customAmount
      ensures old(CustomInputEnabled()) ==> customAmount == value && selectedAmount == CustomChoice
      ensures !old(CustomInputEnabled()) ==> customAmount == old(customAmount) && selectedAmount == old(selectedAmount)
    {
      if CustomInputEnabled() {
        OnCustomChange(value);
      }
    }

    /**
     * `handleRecharge`: an empty amount raises the error notification and changes nothing
     * else; any other amount starts processing and schedules the completion.
     */
    method HandleRecharge()
      modifies this`isProcessing, this`pending, this`toasts
      ensures old(EffectiveAmount()) == "" ==>
        toasts == old(toasts) + [InvalidAmount] && isProcessing == old(isProcessing) && pending == old(pending)
      ensures old(EffectiveAmount()) != "" ==>
        isProcessing && pending == old(pending) + [old(EffectiveAmount())] && toasts == old(toasts)
    {
      var amount := EffectiveAmount();
      if GuardRejects(selectedAmount, customAmount) {
        GuardIsEmptiness(selectedAmount, customAmount);
        toasts := toasts + [InvalidAmount];
        return;
      }
      isProcessing := true;
      pending := pending + [amount];
    }

    /** A click on the pay button: a disabled button does nothing. */
    method ClickPay()
      requires Valid() && !isSuccess
      modifies this`isProcessing, this`pending, this`toasts
      ensures Valid()
      ensures !old(PayEnabled()) ==> isProcessing == old(isProcessing) && pending == old(pending) && toasts == old(toasts)
      ensures old(PayEnabled()) && old(EffectiveAmount()) == "" ==>
        toasts == old(toasts) + [InvalidAmount] && !isProcessing && pending == []
      ensures old(PayEnabled()) && old(EffectiveAmount()) != "" ==>
        isProcessing && pending == [old(EffectiveAmount())] && toasts == old(toasts)
    {
      if PayEnabled() {
        HandleRecharge();
      }
    }

    /** The completion timer: processing ends, success is set, and the captured amount is announced. */
    method CompleteRecharge()
      requires Valid() && pending != []
      modifies this`isProcessing, this`isSuccess, this`pending, this`toasts
      ensures !isProcessing && isSuccess && pending == []
      ensures toasts == old(toasts) + [RechargeSuccessful(old(pending)[0])]
      ensures Valid() && ShowsSuccessView()
    {
      var amount := pending[0];
      isProcessing := false;
      isSuccess := true;
      pending := pending[1..];
      toasts := toasts + [RechargeSuccessful(amount)];
    }
  }

  /** A custom amount of '0' passes validation: only emptiness is checked. */
  method ZeroCustomAmountAccepted() returns (processing: bool, submitted: seq<string>)
    ensures processing && submitted == ["0"]
  {
    var form := new RechargeForm();
    form.ChooseCustom();
    form.TypeCustom("0");
    form.ClickPay();
    processing, submitted := form.isProcessing, form.pending;
  }

  /** Custom selected with nothing typed: the click is rejected with the error notification. */
  method EmptyCustomAmountRejected() returns (processing: bool, toasts: seq<Toast>)
    ensures !processing && toasts == [InvalidAmount]
  {
    var form := new RechargeForm();
    form.ChooseCustom();
    form.ClickPay();
    processing, toasts := form.isProcessing, form.toasts;
  }

  /**
   * Clicking pay twice before the payment completes submits once; the completion then
   * announces the amount chosen and shows the success view.
   */
  method DoubleClickPaysOnce(amount: string) returns (submitted: seq<string>, toasts: seq<Toast>, success: bool)
    requires amount in Presets
    ensures submitted == [amount]
    ensures toasts == [RechargeSuccessful(amount)]
    ensures success
  {
    var form := new RechargeForm();
    form.ChoosePreset(amount);
    form.ClickPay();
    form.ClickPay();
    submitted := form.pending;
    form.CompleteRecharge();
    toasts, success := form.toasts, form.ShowsSuccessView();
  }

  /** Changing the selection while a payment is processing does not change the amount announced. */
  method SwitchWhileProcessing() returns (toasts: seq<Toast>)
    ensures toasts == [RechargeSuccessful("499")]
  {
    var form := new RechargeForm();
    form.ChoosePreset("499");
    form.ClickPay();
    form.ChoosePreset("999");
    form.CompleteRecharge();
    toasts := form.toasts;
  }
}

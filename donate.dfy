/** The donation form: six preset amounts and a custom amount that replace
    each other, the fund and frequency choices, and the Donate button that
    shows the amount chosen. */
module Donate {
  import opened Text

  /** The preset buttons, in dollars. */
  const PresetAmounts: seq<nat> := [10, 25, 50, 100, 250, 500]

  class DonationForm {
    var amount: string
    var customAmount: string
    var selectedFund: string
    var frequency: string

    constructor ()
      ensures amount == "" && customAmount == "" && selectedFund == "general" && frequency == "one-time"
      ensures Exclusive()
    {
      amount, customAmount, selectedFund, frequency := "", "", "general", "one-time";
    }

    /** At most one of the preset and the custom amount is filled in. */
    predicate Exclusive()
      reads this
    {
      amount == "" || customAmount == ""
    }

    /** `customAmount || amount`: the amount the button shows. */
    function DisplayAmount(): (d: string)
      reads this
      ensures customAmount != "" ==> d == customAmount
      ensures customAmount == "" ==> d == amount
      ensures Exclusive() ==> (d == "" <==> amount == "" && customAmount == "")
    {
      if customAmount != "" then customAmount else amount
    }

    /** The button is disabled exactly when there is no amount to show. */
    predicate DonateDisabled()
      reads this
    {
      DisplayAmount() == ""
    }

    /** The button's text. */
    function DonateLabel(): (text: string)
      reads this
      ensures DonateDisabled() ==> text == "Enter Amount"
      ensures !DonateDisabled() ==> text == "Donate $" + DisplayAmount()
    {
      if DisplayAmount() == "" then "Enter Amount" else "Donate $" + DisplayAmount()
    }

    /** A preset button is highlighted when `amount` is its own text. */
    predicate Highlighted(preset: nat)
      reads this
    {
      amount == NatToString(preset)
    }

    /** `handlePresetAmount(value)`: the preset's text, and no custom amount. */
    method HandlePresetAmount(value: nat)
      modifies this
      ensures amount == NatToString(value) && customAmount == ""
      ensures Exclusive() && !DonateDisabled() && DisplayAmount() == NatToString(value)
      ensures forall p :: Highlighted(p) <==> p == value
      ensures selectedFund == old(selectedFund) && frequency == old(frequency)
    {
      amount := NatToString(value);
      customAmount := "";
      forall p
        ensures Highlighted(p) <==> p == value
      {
        if Highlighted(p) {
          NatToStringInjective(p, value);
        }
      }
    }

    /** `handleCustomAmount(value)`: the typed text, and no preset; no
        preset button stays highlighted. */
    method HandleCustomAmount(value: string)
      modifies this
      ensures customAmount == value && amount == ""
      ensures Exclusive() && DisplayAmount() == value
      ensures DonateDisabled() <==> value == ""
      ensures forall p :: !Highlighted(p)
      ensures selectedFund == old(selectedFund) && frequency == old(frequency)
    {
      customAmount := value;
      amount := "";
    }

    /** The fund radio buttons. */
    method SelectFund(id: string)
      modifies this
      ensures selectedFund == id
      ensures amount == old(amount) && customAmount == old(customAmount) && frequency == old(frequency)
    {
      selectedFund := id;
    }

    /** The frequency radio buttons. */
    method SetFrequency(f: string)
      modifies this
      ensures frequency == f
      ensures amount == old(amount) && customAmount == old(customAmount) && selectedFund == old(selectedFund)
    {
      frequency := f;
    }
  }

  /** The last amount chosen wins: a preset after a custom entry shows the
      preset, and a custom entry after a preset shows the custom text. */
  method ChooseBoth(f: DonationForm, preset: nat, custom: string) returns (afterPreset: string, afterCustom: string)
    modifies f
    ensures afterPreset == NatToString(preset)
    ensures afterCustom == custom
    ensures f.Exclusive()
  {
    f.HandleCustomAmount(custom);
    f.HandlePresetAmount(preset);
    afterPreset := f.DisplayAmount();
    f.HandleCustomAmount(custom);
    afterCustom := f.DisplayAmount();
  }
}

/** The four-step order wizard both order pages share: 1 pickup point,
    2 basket, 3 products, 4 customer details. `validateStep` and
    `handleNext` are written identically in both pages. */
module Wizard {

  const FirstStep: int := 1
  const LastStep: int := 4

  /** `validateStep`: step 1 needs a pickup point, step 2 a basket type;
      every other step passes (an empty string is falsy). */
  function ValidateStep(step: int, pickupPoint: string, basketType: string): (ok: bool)
    ensures step == 1 ==> (ok <==> pickupPoint != "")
    ensures step == 2 ==> (ok <==> basketType != "")
    ensures step != 1 && step != 2 ==> ok
  {
    !(step == 1 && pickupPoint == "") && !(step == 2 && basketType == "")
  }

  /** `handleNext`: one step forward when the guard passes, else stay. */
  function Next(step: int, pickupPoint: string, basketType: string): (r: int)
    ensures r == step || r == step + 1
    ensures r == step + 1 <==> ValidateStep(step, pickupPoint, basketType)
  {
    if ValidateStep(step, pickupPoint, basketType) then step + 1 else step
  }

  /** `n` presses of "Continuer" with the choices fixed. */
  function Presses(step: int, pickupPoint: string, basketType: string, n: nat): int
  {
    if n == 0 then step else Next(Presses(step, pickupPoint, basketType, n - 1), pickupPoint, basketType)
  }

  /** From the first step, no number of presses gets past the basket step
      unless both a pickup point and a basket type were chosen; with both,
      every press advances. */
  lemma {:induction false} PressesFromStart(pickupPoint: string, basketType: string, n: nat)
    ensures FirstStep <= Presses(FirstStep, pickupPoint, basketType, n) <= FirstStep + n
    ensures Presses(FirstStep, pickupPoint, basketType, n) > 2 ==> pickupPoint != "" && basketType != ""
    ensures pickupPoint != "" && basketType != "" ==> Presses(FirstStep, pickupPoint, basketType, n) == FirstStep + n
  {
    if n > 0 {
      PressesFromStart(pickupPoint, basketType, n - 1);
    }
  }
}

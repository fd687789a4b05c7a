/** The add-transaction screen (views/AddTransaction.tsx): an amount typed on a
    keypad as an integer number of cents, a two-step view (amount, then
    details) and the submission of the finished record. */
module AddTransaction {
  import opened Wrappers
  import opened Types
  import Catalog
  import opened App

  /** Above this many cents a digit press is ignored. */
  const CAP: int := 99999999

  /** The largest amount in cents the keypad can reach: CAP followed by a 9. */
  const MAX_RAW: int := 999999999

  /** `handleDigitPress`: append the digit unless the amount is already above the cap. */
  function Pressed(v: int, d: nat): int
    requires d <= 9
  {
    if v > CAP then v else v * 10 + d
  }

  /** `handleBackspace`: drop the last digit (`Math.floor(prev / 10)`; the divisor
      is positive, so Dafny's division rounds down as `Math.floor` does). */
  function Erased(v: int): int
  {
    v / 10
  }

  /** A digit press keeps the amount within 0..MAX_RAW. */
  lemma PressKeepsRange(v: int, d: nat)
    requires 0 <= v <= MAX_RAW && d <= 9
    ensures 0 <= Pressed(v, d) <= MAX_RAW
    ensures Pressed(v, d) == v || Pressed(v, d) % 10 == d
  {
  }

  /** Backspace right after an accepted digit press restores the amount, and
      a press on an amount above the cap changes nothing. */
  lemma BackspaceUndoesPress(v: int, d: nat)
    requires 0 <= v && d <= 9
    ensures v <= CAP ==> Erased(Pressed(v, d)) == v
    ensures v > CAP ==> Pressed(v, d) == v
  {
  }

  /** Backspace never leaves the range, and zero stays zero. */
  lemma EraseKeepsRange(v: int)
    requires 0 <= v <= MAX_RAW
    ensures 0 <= Erased(v) <= v && (Erased(v) == v <==> v == 0)
  {
  }

  /** The keys of the keypad: one of the ten digits, or backspace. */
  datatype Key = Digit(d: nat) | Erase

  predicate ValidKey(k: Key)
  {
    k.Digit? ==> k.d <= 9
  }

  function Apply(v: int, k: Key): int
    requires ValidKey(k)
  {
    match k
    case Digit(d) => Pressed(v, d)
    case Erase => Erased(v)
  }

  /** The amount after typing `keys` in order, starting from `v`. */
  function Typed(v: int, keys: seq<Key>): int
    requires forall i :: 0 <= i < |keys| ==> ValidKey(keys[i])
    decreases |keys|
  {
    if keys == [] then v else Typed(Apply(v, keys[0]), keys[1..])
  }

  /** Whatever is typed, starting from an amount in range (0 when the screen
      opens) the amount stays within 0..MAX_RAW. */
  lemma {:induction false} TypedStaysInRange(v: int, keys: seq<Key>)
    requires 0 <= v <= MAX_RAW
    requires forall i :: 0 <= i < |keys| ==> ValidKey(keys[i])
    ensures 0 <= Typed(v, keys) <= MAX_RAW
    decreases |keys|
  {
    if keys != [] {
      match keys[0] {
        case Digit(d) => PressKeepsRange(v, d);
        case Erase => EraseKeepsRange(v);
      }
      TypedStaysInRange(Apply(v, keys[0]), keys[1..]);
    }
  }

  /** Typing the digits of a number of at most nine digits, most significant
      first, from 0 yields that number. */
  function DigitKeys(n: nat): (keys: seq<Key>)
    ensures forall i :: 0 <= i < |keys| ==> keys[i].Digit? && ValidKey(keys[i])
    ensures n == 0 <==> keys == []
    ensures n > 0 && n < 10 ==> |keys| == 1
  {
    if n == 0 then [] else DigitKeys(n / 10) + [Digit(n % 10)]
  }

  lemma {:induction false} TypedAppend(v: int, keys: seq<Key>, k: Key)
    requires forall i :: 0 <= i < |keys| ==> ValidKey(keys[i])
    requires ValidKey(k)
    ensures Typed(v, keys + [k]) == Apply(Typed(v, keys), k)
    decreases |keys|
  {
    if keys == [] {
      assert [k][1..] == [];
    } else {
      assert (keys + [k])[1..] == keys[1..] + [k];
      TypedAppend(Apply(v, keys[0]), keys[1..], k);
    }
  }

  /** Every amount up to MAX_RAW cents can be typed: its digits, pressed in
      order from an empty keypad, give exactly that amount. */
  lemma {:induction false} EveryAmountReachable(n: nat)
    requires n <= MAX_RAW
    ensures Typed(0, DigitKeys(n)) == n
    decreases n
  {
    if n > 0 {
      EveryAmountReachable(n / 10);
      TypedAppend(0, DigitKeys(n / 10), Digit(n % 10));
      assert n / 10 <= CAP;
    }
  }

  /** `toggleStep`: the amount step (0) and the details step (1) swap. */
  function Toggled(step: nat): (r: nat)
    ensures r <= 1 && (step <= 1 ==> r != step)
  {
    if step == 0 then 1 else 0
  }

  lemma ToggleTwice(step: nat)
    requires step <= 1
    ensures Toggled(Toggled(step)) == step
  {
  }

  /** The state of the screen. The type buttons offer only "variable expense"
      and "income", so a fixed expense is never chosen here. */
  class Keypad {
    var rawValue: int
    var note: string
    var kind: TransactionType
    var category: string
    var date: Date
    var paymentMethod: PaymentMethod
    var status: TransactionStatus
    var step: nat

    predicate Valid()
      reads this
    {
      0 <= rawValue <= MAX_RAW && kind != ExpenseFixed && step <= 1
    }

    /** The screen opens empty on the amount step, as a variable expense in the
        first catalog category, paid by credit card, dated `initialDate`. */
    constructor (initialDate: Date)
      ensures Valid()
      ensures rawValue == 0 && note == "" && kind == ExpenseVariable
      ensures category == Catalog.CATEGORIES[0].id == "rent"
      ensures date == initialDate && paymentMethod == CreditCard && status == Paid
      ensures step == 0
    {
      rawValue := 0;
      note := "";
      kind := ExpenseVariable;
      category := Catalog.CATEGORIES[0].id;
      date := initialDate;
      paymentMethod := CreditCard;
      status := Paid;
      step := 0;
    }

    method PressDigit(d: nat)
      requires Valid() && d <= 9
      modifies this
      ensures Valid()
      ensures rawValue == Pressed(old(rawValue), d)
      ensures old(rawValue) > CAP ==> rawValue == old(rawValue)
      ensures old(rawValue) <= CAP ==> Erased(rawValue) == old(rawValue) && rawValue % 10 == d
      ensures note == old(note) && kind == old(kind) && category == old(category)
      ensures date == old(date) && paymentMethod == old(paymentMethod) && status == old(status)
      ensures step == old(step)
    {
      PressKeepsRange(rawValue, d);
      BackspaceUndoesPress(rawValue, d);
      if rawValue <= CAP {
        rawValue := rawValue * 10 + d;
      }
    }

    method Backspace()
      requires Valid()
      modifies this
      ensures Valid()
      ensures rawValue == Erased(old(rawValue)) && rawValue <= old(rawValue)
      ensures note == old(note) && kind == old(kind) && category == old(category)
      ensures date == old(date) && paymentMethod == old(paymentMethod) && status == old(status)
      ensures step == old(step)
    {
      EraseKeepsRange(rawValue);
      rawValue := rawValue / 10;
    }

    /** The "Saída" button. */
    method SelectExpense()
      requires Valid()
      modifies this
      ensures Valid() && kind == ExpenseVariable
      ensures rawValue == old(rawValue) && note == old(note) && category == old(category)
      ensures date == old(date) && paymentMethod == old(paymentMethod) && status == old(status)
      ensures step == old(step)
    {
      kind := ExpenseVariable;
    }

    /** The "Entrada" button. */
    method SelectIncome()
      requires Valid()
      modifies this
      ensures Valid() && kind == Income
      ensures rawValue == old(rawValue) && note == old(note) && category == old(category)
      ensures date == old(date) && paymentMethod == old(paymentMethod) && status == old(status)
      ensures step == old(step)
    {
      kind := Income;
    }

    /** The note, category, date, status and payment-method inputs of the
        details step, each replacing one field. */
    method SetNote(s: string)
      requires Valid()
      modifies this
      ensures Valid() && note == s
      ensures rawValue == old(rawValue) && kind == old(kind) && category == old(category)
      ensures date == old(date) && paymentMethod == old(paymentMethod) && status == old(status)
      ensures step == old(step)
    {
      note := s;
    }

    method SetCategory(id: string)
      requires Valid()
      modifies this
      ensures Valid() && category == id
      ensures rawValue == old(rawValue) && note == old(note) && kind == old(kind)
      ensures date == old(date) && paymentMethod == old(paymentMethod) && status == old(status)
      ensures step == old(step)
    {
      category := id;
    }

    method SetDate(d: Date)
      requires Valid()
      modifies this
      ensures Valid() && date == d
      ensures rawValue == old(rawValue) && note == old(note) && kind == old(kind)
      ensures category == old(category) && paymentMethod == old(paymentMethod) && status == old(status)
      ensures step == old(step)
    {
      date := d;
    }

    method SetStatus(s: TransactionStatus)
      requires Valid()
      modifies this
      ensures Valid() && status == s
      ensures rawValue == old(rawValue) && note == old(note) && kind == old(kind)
      ensures category == old(category) && date == old(date) && paymentMethod == old(paymentMethod)
      ensures step == old(step)
    {
      status := s;
    }

    method SetPaymentMethod(m: PaymentMethod)
      requires Valid()
      modifies this
      ensures Valid() && paymentMethod == m
      ensures rawValue == old(rawValue) && note == old(note) && kind == old(kind)
      ensures category == old(category) && date == old(date) && status == old(status)
      ensures step == old(step)
    {
      paymentMethod := m;
    }

    /** The "next" button is disabled exactly while the amount is zero. */
    predicate NextDisabled()
      reads this
    {
      rawValue == 0
    }

    /** The arrow button of the amount step: shown only on that step, it moves
        to the details step unless it is disabled. */
    method Next()
      requires Valid()
      modifies this
      ensures Valid()
      ensures step == if old(step) == 0 && old(rawValue) != 0 then 1 else old(step)
      ensures rawValue == old(rawValue) && note == old(note) && kind == old(kind)
      ensures category == old(category) && date == old(date)
      ensures paymentMethod == old(paymentMethod) && status == old(status)
    {
      if step == 0 && !NextDisabled() {
        step := Toggled(step);
      }
    }

    /** The small "up" button of the details step: back to the amount step. */
    method Back()
      requires Valid()
      modifies this
      ensures Valid()
      ensures step == 0
      ensures rawValue == old(rawValue) && note == old(note) && kind == old(kind)
      ensures category == old(category) && date == old(date)
      ensures paymentMethod == old(paymentMethod) && status == old(status)
    {
      if step == 1 {
        step := Toggled(step);
      }
    }

    /** A tap on the summary of the details step also returns to the amount step. */
    method Edit()
      requires Valid()
      modifies this
      ensures Valid() && step == 0
      ensures rawValue == old(rawValue) && note == old(note) && kind == old(kind)
      ensures category == old(category) && date == old(date)
      ensures paymentMethod == old(paymentMethod) && status == old(status)
    {
      step := 0;
    }

    /** `handleSubmit`: nothing while the amount is zero; otherwise the record
        in reais (cents / 100), one-time, with the chosen type, category,
        date, status and payment method. */
    method Submit() returns (draft: Option<Draft>)
      requires Valid()
      ensures draft.None? <==> rawValue == 0
      ensures draft.Some? ==> draft.value.amount > 0.0 && draft.value.amount * 100.0 == rawValue as real
      ensures draft.Some? ==> draft.value.frequency == OneTime && draft.value.kind != ExpenseFixed
      ensures draft.Some? ==> draft.value == Draft(draft.value.amount, note, kind, category, OneTime, date, status, paymentMethod)
    {
      var finalValue := rawValue as real / 100.0;
      if finalValue <= 0.0 {
        return None;
      }
      draft := Some(Draft(finalValue, note, kind, category, OneTime, date, status, paymentMethod));
    }
  }
}

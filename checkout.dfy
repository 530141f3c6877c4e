/** What the two order pages share: the form's validation rules, the
    quantity steppers and the remove confirmation of the cart list, and the
    order payload posted to the server. */
module Checkout {
  import opened Seqs
  import opened Text
  import opened ShopCart
  import opened WhatsApp

  /** The raw values of the order form's fields; a missing field is "". */
  datatype FormInput = FormInput(name: string, phone: string, address: string, pay: string, notes: string)

  /** What validateForm returns: the verdict and the cleaned fields. */
  datatype Validated = Validated(ok: bool, name: string, phone: string, address: string, pay: string)

  const NAME_MSG: string := "Name too short"
  const ADDRESS_MSG: string := "Address too short"
  const PAY_MSG: string := "Select a payment method"
  /** The order pages keep the last twelve digits of a phone number. */
  const PHONE_DIGITS: nat := 12

  predicate NameOk(f: FormInput)
  {
    Utf16Length(Trim(f.name)) >= 2
  }

  predicate PhoneOk(f: FormInput)
  {
    |SanitizePhone(f.phone, PHONE_DIGITS)| >= 10
  }

  predicate AddressOk(f: FormInput)
  {
    Utf16Length(Trim(f.address)) >= 10
  }

  predicate PayOk(f: FormInput)
  {
    f.pay != ""
  }

  /** The error messages of validateForm, in the order it checks its rules,
      given which rules hold. */
  function ErrorList(nameOk: bool, phoneOk: bool, addressOk: bool, payOk: bool, phoneMsg: string): seq<string>
  {
    (if nameOk then [] else [NAME_MSG])
    + (if phoneOk then [] else [phoneMsg])
    + (if addressOk then [] else [ADDRESS_MSG])
    + (if payOk then [] else [PAY_MSG])
  }

  /** The error messages validateForm collects for a form. */
  function Errors(f: FormInput, phoneMsg: string): seq<string>
  {
    ErrorList(NameOk(f), PhoneOk(f), AddressOk(f), PayOk(f), phoneMsg)
  }

  /** validateForm: the trimmed name and address, the sanitised phone, the
      payment method, and one error per broken rule. */
  method ValidateForm(f: FormInput, phoneMsg: string) returns (v: Validated, errors: seq<string>)
    ensures errors == Errors(f, phoneMsg)
    ensures v.ok <==> errors == []
    ensures v.name == Trim(f.name) && v.phone == SanitizePhone(f.phone, PHONE_DIGITS)
    ensures v.address == Trim(f.address) && v.pay == f.pay
  {
    var name := Trim(f.name);
    var phone := SanitizePhone(f.phone, PHONE_DIGITS);
    var address := Trim(f.address);
    var pay := f.pay;
    RuleChecks(f, name, phone, address);
    errors := CollectErrors(name == "" || Utf16Length(name) < 2, phone == "" || |phone| < 10,
                            address == "" || Utf16Length(address) < 10, pay == "", phoneMsg);
    v := Validated(|errors| == 0, name, phone, address, pay);
  }

  /** The checks validateForm writes out are the rules. */
  lemma RuleChecks(f: FormInput, name: string, phone: string, address: string)
    requires name == Trim(f.name) && phone == SanitizePhone(f.phone, PHONE_DIGITS) && address == Trim(f.address)
    ensures (name == "" || Utf16Length(name) < 2) == !NameOk(f)
    ensures (phone == "" || |phone| < 10) == !PhoneOk(f)
    ensures (address == "" || Utf16Length(address) < 10) == !AddressOk(f)
  {
  }

  /** The pushes of validateForm: one message per failed check, in order. */
  method CollectErrors(nameBad: bool, phoneBad: bool, addressBad: bool, payMissing: bool, phoneMsg: string)
    returns (errors: seq<string>)
    ensures errors == ErrorList(!nameBad, !phoneBad, !addressBad, !payMissing, phoneMsg)
  {
    errors := [];
    if nameBad {
      errors := errors + [NAME_MSG];
    }
    ghost var e1 := errors;
    if phoneBad {
      errors := errors + [phoneMsg];
    }
    ghost var e2 := errors;
    if addressBad {
      errors := errors + [ADDRESS_MSG];
    }
    ghost var e3 := errors;
    if payMissing {
      errors := errors + [PAY_MSG];
    }
    ErrorListSteps(!nameBad, !phoneBad, !addressBad, !payMissing, phoneMsg, e1, e2, e3, errors);
  }

  /** The list grows by one message per broken rule, in the order checked. */
  lemma ErrorListSteps(nameOk: bool, phoneOk: bool, addressOk: bool, payOk: bool, phoneMsg: string,
                       e1: seq<string>, e2: seq<string>, e3: seq<string>, e4: seq<string>)
    requires e1 == (if nameOk then [] else [NAME_MSG])
    requires e2 == e1 + (if phoneOk then [] else [phoneMsg])
    requires e3 == e2 + (if addressOk then [] else [ADDRESS_MSG])
    requires e4 == e3 + (if payOk then [] else [PAY_MSG])
    ensures e4 == ErrorList(nameOk, phoneOk, addressOk, payOk, phoneMsg)
  {
  }

  /** The list is empty exactly when all four rules hold, and each message is
      in it exactly when its rule fails. */
  lemma ErrorListMeans(nameOk: bool, phoneOk: bool, addressOk: bool, payOk: bool, phoneMsg: string)
    requires phoneMsg != NAME_MSG && phoneMsg != ADDRESS_MSG && phoneMsg != PAY_MSG
    ensures var e := ErrorList(nameOk, phoneOk, addressOk, payOk, phoneMsg);
      && (e == [] <==> nameOk && phoneOk && addressOk && payOk)
      && (NAME_MSG in e <==> !nameOk)
      && (phoneMsg in e <==> !phoneOk)
      && (ADDRESS_MSG in e <==> !addressOk)
      && (PAY_MSG in e <==> !payOk)
  {
    var n: seq<string> := if nameOk then [] else [NAME_MSG];
    var p: seq<string> := if phoneOk then [] else [phoneMsg];
    var a: seq<string> := if addressOk then [] else [ADDRESS_MSG];
    var y: seq<string> := if payOk then [] else [PAY_MSG];
    var e := ErrorList(nameOk, phoneOk, addressOk, payOk, phoneMsg);
    assert e == n + p + a + y;
    assert NAME_MSG != ADDRESS_MSG && NAME_MSG != PAY_MSG && ADDRESS_MSG != PAY_MSG by {
      assert NAME_MSG[0] == 'N' && ADDRESS_MSG[0] == 'A' && PAY_MSG[0] == 'S';
    }
  }

  /** The form passes exactly when all four rules hold, and each message is
      reported exactly when its rule fails. */
  lemma ErrorsMeans(f: FormInput, phoneMsg: string)
    requires phoneMsg != NAME_MSG && phoneMsg != ADDRESS_MSG && phoneMsg != PAY_MSG
    ensures var e := Errors(f, phoneMsg);
      && (e == [] <==> NameOk(f) && PhoneOk(f) && AddressOk(f) && PayOk(f))
      && (NAME_MSG in e <==> !NameOk(f))
      && (phoneMsg in e <==> !PhoneOk(f))
      && (ADDRESS_MSG in e <==> !AddressOk(f))
      && (PAY_MSG in e <==> !PayOk(f))
  {
    ErrorListMeans(NameOk(f), PhoneOk(f), AddressOk(f), PayOk(f), phoneMsg);
  }

  /** The messages come in the order name, phone, address, payment, so the
      first one reported, the one shown, is the first rule broken. */
  lemma ErrorListOrdered(nameOk: bool, phoneOk: bool, addressOk: bool, payOk: bool, phoneMsg: string)
    ensures IsSubseq(ErrorList(nameOk, phoneOk, addressOk, payOk, phoneMsg), [NAME_MSG, phoneMsg, ADDRESS_MSG, PAY_MSG])
  {
    var n: seq<string> := if nameOk then [] else [NAME_MSG];
    var p: seq<string> := if phoneOk then [] else [phoneMsg];
    var a: seq<string> := if addressOk then [] else [ADDRESS_MSG];
    var y: seq<string> := if payOk then [] else [PAY_MSG];
    assert IsSubseq<string>([], []);
    SubseqPick(y, PAY_MSG, [], []);
    assert y + [] == y;
    SubseqPick(a, ADDRESS_MSG, y, [PAY_MSG]);
    SubseqPick(p, phoneMsg, a + y, [ADDRESS_MSG, PAY_MSG]);
    SubseqPick(n, NAME_MSG, p + (a + y), [phoneMsg, ADDRESS_MSG, PAY_MSG]);
    assert ErrorList(nameOk, phoneOk, addressOk, payOk, phoneMsg) == n + (p + (a + y));
  }

  /** Keeping or dropping one leading element keeps a subsequence. */
  lemma SubseqPick(x: seq<string>, h: string, r: seq<string>, t: seq<string>)
    requires x == [] || x == [h]
    requires IsSubseq(r, t)
    ensures IsSubseq(x + r, [h] + t)
  {
    if x == [] {
      SubseqSkip(r, t, h);
      assert x + r == r;
    } else {
      assert (x + r)[1..] == r;
      assert ([h] + t)[1..] == t;
    }
  }

  // ---------- the cart list ----------

  /** The + stepper: `Math.min(qty + 1, 99)`. */
  function Increase(q: int): (r: int)
    ensures r <= MAX_QTY
    ensures q < MAX_QTY ==> r == q + 1
    ensures q >= MAX_QTY ==> r == MAX_QTY
    ensures 1 <= q <= MAX_QTY ==> 1 <= r <= MAX_QTY
  {
    if q + 1 < MAX_QTY then q + 1 else MAX_QTY
  }

  /** The − stepper: `Math.max(qty - 1, 1)`. */
  function Decrease(q: int): (r: int)
    ensures r >= 1
    ensures q > 1 ==> r == q - 1
    ensures q <= 1 ==> r == 1
    ensures 1 <= q <= MAX_QTY ==> 1 <= r <= MAX_QTY
  {
    if q - 1 > 1 then q - 1 else 1
  }

  /** Removing a line asks first only when it holds more than three. */
  predicate NeedsConfirm(q: int)
  {
    q > 3
  }

  /** The cart Cart.updateQty saves. */
  function QtyUpdated(lines: seq<Line>, id: string, qty: int): seq<Line>
  {
    var n := Clamp(qty, 0, MAX_QTY);
    if n == 0 then Cleaned(Removed(lines, id)) else Cleaned(WithQty(lines, id, n))
  }

  /** The first line of the cart with the id, by string equality. */
  function LineOf(lines: seq<Line>, id: string): Option<nat>
  {
    FindIndex(lines, (l: Line) => l.id == id)
  }

  /** A button of the cart list. */
  datatype CartButton =
    | QtyButton(id: string, increase: bool)
    | RemoveButton(id: string)
    | OtherButton(id: string)

  /** The cart after a click on a cart button, None when nothing is saved:
      a button without an id or for a dish not in the cart does nothing, a
      stepper saves the stepped quantity, and the remove button removes the
      line unless the confirmation it needed was declined. */
  function ClickedCart(lines: seq<Line>, btn: CartButton, confirmed: bool): Option<seq<Line>>
  {
    if btn.id == "" then None
    else match LineOf(lines, btn.id)
      case None => None
      case Some(i) =>
        match btn
        case QtyButton(id, inc) => Some(QtyUpdated(lines, id, if inc then Increase(lines[i].qty) else Decrease(lines[i].qty)))
        case RemoveButton(id) => if NeedsConfirm(lines[i].qty) && !confirmed then None else Some(Cleaned(Removed(lines, id)))
        case OtherButton(_) => None
  }

  /** The cart after a key press on a cart row: + and − step, Backspace and
      Delete remove, other keys and unknown rows do nothing. */
  function KeyedCart(lines: seq<Line>, id: string, key: string): Option<seq<Line>>
  {
    match LineOf(lines, id)
    case None => None
    case Some(i) =>
      if key == "+" then Some(QtyUpdated(lines, id, Increase(lines[i].qty)))
      else if key == "-" then Some(QtyUpdated(lines, id, Decrease(lines[i].qty)))
      else if key == "Backspace" || key == "Delete" then Some(Cleaned(Removed(lines, id)))
      else None
  }

  predicate AllClean(lines: seq<Line>)
  {
    forall i :: 0 <= i < |lines| ==> IsClean(lines[i])
  }

  /** Stepping a line of a clean cart with distinct ids moves its quantity
      by one within 1..99 and leaves every other line as it was. */
  lemma StepMeans(lines: seq<Line>, i: nat, inc: bool)
    requires AllClean(lines) && UniqueIds(lines) && i < |lines|
    ensures var q := lines[i].qty;
      var r := QtyUpdated(lines, lines[i].id, if inc then Increase(q) else Decrease(q));
      && |r| == |lines| && AllClean(r) && UniqueIds(r)
      && r[i] == lines[i].(qty := if inc then Increase(q) else Decrease(q))
      && (inc && q < MAX_QTY ==> r[i].qty == q + 1)
      && (!inc && q > 1 ==> r[i].qty == q - 1)
      && (forall j :: 0 <= j < |lines| && j != i ==> r[j] == lines[j])
  {
    var q := lines[i].qty;
    var n := if inc then Increase(q) else Decrease(q);
    assert Clamp(n, 0, MAX_QTY) == n;
    var w := WithQty(lines, lines[i].id, n);
    forall j | 0 <= j < |lines| && j != i ensures w[j] == lines[j] {
      assert lines[j].id != lines[i].id;
    }
    assert AllClean(w);
    CleanedIdempotent(w);
  }

  /** What a click does: a stepper changes one quantity by one, keeping the
      cart clean; a remove takes the dish out unless a needed confirmation
      was declined. */
  lemma ClickedCartMeans(lines: seq<Line>, btn: CartButton, confirmed: bool)
    requires AllClean(lines) && UniqueIds(lines)
    ensures btn.id == "" || LineOf(lines, btn.id).None? || btn.OtherButton? ==> ClickedCart(lines, btn, confirmed).None?
    ensures btn.id != "" && LineOf(lines, btn.id).Some? ==>
      var i := LineOf(lines, btn.id).value;
      && (btn.QtyButton? ==>
            var r := ClickedCart(lines, btn, confirmed);
            && r.Some? && |r.value| == |lines|
            && r.value[i].qty == (if btn.increase then Increase(lines[i].qty) else Decrease(lines[i].qty))
            && (forall j :: 0 <= j < |lines| && j != i ==> r.value[j] == lines[j]))
      && (btn.RemoveButton? ==>
            && (ClickedCart(lines, btn, confirmed).None? <==> NeedsConfirm(lines[i].qty) && !confirmed)
            && (ClickedCart(lines, btn, confirmed).Some? ==>
                  forall j :: 0 <= j < |ClickedCart(lines, btn, confirmed).value| ==> ClickedCart(lines, btn, confirmed).value[j].id != btn.id))
  {
    if btn.id != "" && LineOf(lines, btn.id).Some? {
      var i := LineOf(lines, btn.id).value;
      if btn.QtyButton? {
        StepMeans(lines, i, btn.increase);
      } else if btn.RemoveButton? {
        RemovedMeans(lines, btn.id);
      }
    }
  }

  // ---------- the order sent ----------

  datatype PayloadItem = PayloadItem(id: string, qty: int)

  /** The body posted to /api/order. */
  datatype Payload = Payload(items: seq<PayloadItem>, customer: Customer, pay: string, notes: string)

  /** `items.map(i => ({ id: i.id, qty: i.qty }))` */
  function PayloadItems(lines: seq<Line>): seq<PayloadItem>
  {
    seq(|lines|, k requires 0 <= k < |lines| => PayloadItem(lines[k].id, lines[k].qty))
  }

  /** The items the WhatsApp message lists: name, quantity and price × quantity. */
  function WaItems(lines: seq<Line>): seq<WaItem>
  {
    seq(|lines|, k requires 0 <= k < |lines| => WaItem(lines[k].name, lines[k].qty, lines[k].price * lines[k].qty as real))
  }

  function SumWa(items: seq<WaItem>): real
  {
    if items == [] then 0.0 else SumWa(items[..|items| - 1]) + items[|items| - 1].lineTotal
  }

  /** The message's line totals add up to the cart total it reports. */
  lemma {:induction false} WaItemsTotal(lines: seq<Line>)
    ensures SumWa(WaItems(lines)) == Total(lines)
  {
    if lines != [] {
      var init := lines[..|lines| - 1];
      WaItemsTotal(init);
      var w := WaItems(lines);
      assert |w[..|lines| - 1]| == |WaItems(init)|;
      assert forall k :: 0 <= k < |init| ==> w[..|lines| - 1][k] == w[k] == WaItems(init)[k];
      assert w[..|lines| - 1] == WaItems(init);
    }
  }

  /** The answer to the POST: Failed when the request failed or nothing came
      back; otherwise the `error` field ("" when absent) and the order id the
      page reads from it ("" when absent). */
  datatype Reply = Failed | Answered(error: string, id: string)

  predicate Succeeded(r: Reply)
  {
    r.Answered? && r.error == ""
  }

  /** The status line under the form. */
  datatype Notice = Idle | Submitting | Placed(orderId: string, total: real) | SubmitFailed
}

/** The second order page: the same cart list and form as the first, a
    phone message of its own, the validated phone sent as it is, and a
    WhatsApp fallback that lists the payment method. */
module OrderPageV2 {
  import opened Seqs
  import opened Text
  import opened EventBus
  import opened ShopCart
  import opened WhatsApp
  import opened Checkout

  const PHONE_MSG: string := "Invalid phone number"

  /** The customer sent: the validated name, phone and address. */
  function SentCustomer(f: FormInput): Customer
  {
    Customer(Trim(f.name), SanitizePhone(f.phone, PHONE_DIGITS), Trim(f.address))
  }

  /** The body posted for a cart and a valid form. */
  function OrderPayload(lines: seq<Line>, f: FormInput): Payload
  {
    Payload(PayloadItems(lines), SentCustomer(f), f.pay, Trim(f.notes))
  }

  /** buildWhatsAppLink: the storefront's builder when it is loaded, which
      is not given the payment method, otherwise the page's own. */
  function PageLink(items: Option<seq<WaItem>>, c: Customer, total: real, cartTotal: real, pay: string, phone: string, aiPresent: bool, fmt: real -> string): string
  {
    if aiPresent then AiLink(items, c, total, cartTotal, phone, fmt)
    else FallbackLinkV2(items, c, total, pay, phone, fmt)
  }

  method BuildWhatsAppLink(items: Option<seq<WaItem>>, c: Customer, total: real, cartTotal: real, pay: string, phone: string, aiPresent: bool, fmt: real -> string)
    returns (url: string)
    ensures url == PageLink(items, c, total, cartTotal, pay, phone, aiPresent, fmt)
  {
    if aiPresent {
      url := BuildAiLink(items, c, total, cartTotal, phone, fmt);
    } else {
      url := BuildFallbackLinkV2(items, c, total, pay, phone, fmt);
    }
  }

  /** The link shown after a successful submit: the cart's dishes, the
      customer sent, the placeholder number and the total taken before the
      cart is emptied. */
  function SubmitLink(lines: seq<Line>, f: FormInput, aiPresent: bool, fmt: real -> string): string
  {
    PageLink(Some(WaItems(lines)), SentCustomer(f), Total(lines), Total(lines), f.pay, PLACEHOLDER_PHONE, aiPresent, fmt)
  }

  /** A submit that gets as far as the link (a non-empty cart, a valid form)
      always yields one, addressed to the placeholder's country code and
      carrying a message that names every dish of the cart. */
  lemma SubmitLinkMeans(lines: seq<Line>, f: FormInput, aiPresent: bool, fmt: real -> string)
    requires lines != [] && Errors(f, PHONE_MSG) == []
    ensures var url := SubmitLink(lines, f, aiPresent, fmt);
      && url != ""
      && exists msg :: ParseLink(url) == Some((DEFAULT_DEST, msg))
           && forall k :: 0 <= k < |lines| ==> Contains(msg, ItemLine(WaItems(lines)[k], fmt, aiPresent))
  {
    var c := SentCustomer(f);
    var items := WaItems(lines);
    var t := Total(lines);
    assert PHONE_MSG != NAME_MSG && PHONE_MSG != ADDRESS_MSG && PHONE_MSG != PAY_MSG by {
      assert PHONE_MSG[0] == 'I' && NAME_MSG[0] == 'N' && ADDRESS_MSG[0] == 'A' && PAY_MSG[0] == 'S';
    }
    ErrorsMeans(f, PHONE_MSG);
    assert CustomerComplete(c);
    PlaceholderDest();
    if aiPresent {
      AiLinkMeans(Some(items), c, t, t, PLACEHOLDER_PHONE, fmt);
      OrderLinesNameItems(items, c, t, fmt, true, 10);
    } else {
      FallbackLinkV2Means(Some(items), c, t, f.pay, PLACEHOLDER_PHONE, fmt);
      OrderLinesV2NameItems(items, c, t, f.pay, fmt);
    }
  }

  class Page {
    /** window.Cart */
    const cart: Cart
    /** The name and phone remembered in localStorage. */
    var storedName: string
    var storedPhone: string
    /** Every order body posted, in order. */
    var sent: seq<Payload>
    /** The href of the WhatsApp link. */
    var waHref: string
    var notice: Notice

    constructor (cart: Cart, storedName: string, storedPhone: string)
      ensures this.cart == cart && this.storedName == storedName && this.storedPhone == storedPhone
      ensures sent == [] && waHref == "" && notice == Idle
    {
      this.cart := cart;
      this.storedName := storedName;
      this.storedPhone := storedPhone;
      sent := [];
      waHref := "";
      notice := Idle;
    }

    /** onCartClick: `confirmed` is the answer to the confirmation dialog,
        read only when the line holds more than three. */
    method OnCartClick(btn: CartButton, confirmed: bool)
      modifies cart`lines, cart.bus`events
      ensures var r := ClickedCart(old(cart.lines), btn, confirmed);
        && (r.None? ==> cart.lines == old(cart.lines) && cart.bus.events == old(cart.bus.events))
        && (r.Some? ==> cart.lines == r.value && cart.bus.events == AfterEmit(old(cart.bus.events), "cart:updated"))
    {
      var id := btn.id;
      if id == "" {
        return;
      }
      var found := LineOf(cart.lines, id);
      if found.None? {
        return;
      }
      var item := cart.lines[found.value];
      match btn
      case QtyButton(_, inc) =>
        var next := if inc then Increase(item.qty) else Decrease(item.qty);
        cart.UpdateQty(id, next);
      case RemoveButton(_) =>
        var ok := if NeedsConfirm(item.qty) then confirmed else true;
        if ok {
          cart.RemoveItem(id);
        }
      case OtherButton(_) =>
    }

    /** onCartKeydown on the row of dish `id`. */
    method OnCartKeydown(id: string, key: string)
      modifies cart`lines, cart.bus`events
      ensures var r := KeyedCart(old(cart.lines), id, key);
        && (r.None? ==> cart.lines == old(cart.lines) && cart.bus.events == old(cart.bus.events))
        && (r.Some? ==> cart.lines == r.value && cart.bus.events == AfterEmit(old(cart.bus.events), "cart:updated"))
    {
      var found := LineOf(cart.lines, id);
      if found.None? {
        return;
      }
      var item := cart.lines[found.value];
      if key == "+" {
        cart.UpdateQty(id, Increase(item.qty));
      } else if key == "-" {
        cart.UpdateQty(id, Decrease(item.qty));
      } else if key == "Backspace" || key == "Delete" {
        cart.RemoveItem(id);
      }
    }

    /** handleSubmit: nothing for an empty cart or an invalid form; otherwise
        the order is posted as the cart and the validated form give it. */
    method HandleSubmit(f: FormInput, reply: Reply, aiPresent: bool, fmt: real -> string)
      modifies this, cart`lines, cart.bus`events
      ensures old(cart.lines) == [] || Errors(f, PHONE_MSG) != [] ==>
        && cart.lines == old(cart.lines) && cart.bus.events == old(cart.bus.events)
        && sent == old(sent) && storedName == old(storedName) && storedPhone == old(storedPhone)
        && waHref == old(waHref) && notice == old(notice)
      ensures old(cart.lines) != [] && Errors(f, PHONE_MSG) == [] ==>
        && sent == old(sent) + [OrderPayload(old(cart.lines), f)]
        && storedName == Trim(f.name) && storedPhone == SanitizePhone(f.phone, PHONE_DIGITS)
        && (Succeeded(reply) ==>
              && cart.lines == [] && cart.bus.events == AfterEmit(old(cart.bus.events), "cart:updated")
              && notice == Placed(reply.id, Total(old(cart.lines)))
              && waHref == SubmitLink(old(cart.lines), f, aiPresent, fmt))
        && (!Succeeded(reply) ==>
              && cart.lines == old(cart.lines) && cart.bus.events == old(cart.bus.events)
              && notice == SubmitFailed && waHref == old(waHref))
    {
      if |cart.lines| == 0 {
        return;
      }
      var v, errors := ValidateForm(f, PHONE_MSG);
      if !v.ok {
        return;
      }
      var payload := Payload(PayloadItems(cart.lines), Customer(v.name, v.phone, v.address), v.pay, Trim(f.notes));
      assert payload == OrderPayload(cart.lines, f);
      Post(payload, reply, aiPresent, fmt);
    }

    /** The part of handleSubmit after validation: the customer is
        remembered and the order posted; on success the link is built from
        the cart and then the cart is emptied, on failure the cart is kept. */
    method Post(payload: Payload, reply: Reply, aiPresent: bool, fmt: real -> string)
      modifies this, cart`lines, cart.bus`events
      ensures sent == old(sent) + [payload]
      ensures storedName == payload.customer.name && storedPhone == payload.customer.phone
      ensures Succeeded(reply) ==>
        && cart.lines == [] && cart.bus.events == AfterEmit(old(cart.bus.events), "cart:updated")
        && notice == Placed(reply.id, Total(old(cart.lines)))
        && waHref == PageLink(Some(WaItems(old(cart.lines))), payload.customer, Total(old(cart.lines)), Total(old(cart.lines)), payload.pay, PLACEHOLDER_PHONE, aiPresent, fmt)
      ensures !Succeeded(reply) ==>
        && cart.lines == old(cart.lines) && cart.bus.events == old(cart.bus.events)
        && notice == SubmitFailed && waHref == old(waHref)
    {
      storedName := payload.customer.name;
      storedPhone := payload.customer.phone;
      notice := Submitting;
      sent := sent + [payload];
      var orderTotal := Total(cart.lines);
      if !Succeeded(reply) {
        notice := SubmitFailed;
        return;
      }
      notice := Placed(reply.id, orderTotal);
      waHref := BuildWhatsAppLink(Some(WaItems(cart.lines)), payload.customer, orderTotal, Total(cart.lines), payload.pay, PLACEHOLDER_PHONE, aiPresent, fmt);
      cart.Clear();
    }
  }
}

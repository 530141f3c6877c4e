/** The WhatsApp deep link that hands an order to the kitchen's chat: a
    message of one line per dish, the total and the customer's details,
    percent-encoded into the `text` parameter of `https://wa.me/<number>`.
    Three builders exist: the storefront's own (AI.buildWhatsAppLink), and
    the fallbacks of the two order pages, used when the storefront script is
    not loaded. Amounts are rendered by `fmt`, which stands for formatINR. */
module WhatsApp {
  import opened Seqs
  import opened Text
  import opened Html
  import opened Uri

  /** A dish as the order page passes it: name, quantity and line total. */
  datatype WaItem = WaItem(name: string, qty: int, lineTotal: real)

  /** The customer record; a missing field is "". */
  datatype Customer = Customer(name: string, phone: string, address: string)

  const WA_PREFIX: string := "https://wa.me/"
  const TEXT_PARAM: string := "?text="
  const GREETING: string := "Hi Ghar ka Khana,"
  const DEFAULT_DEST: string := "91"
  /** The number the order pages pass as the kitchen's. */
  const PLACEHOLDER_PHONE: string := "+91XXXXXXXXXX"

  /** `https://wa.me/${dest}?text=${encodeRFC3986(msg)}` */
  function Link(dest: string, msg: string): string
  {
    WA_PREFIX + dest + TEXT_PARAM + EncodeRFC3986(msg)
  }

  predicate AllDigits(s: string)
  {
    forall i :: 0 <= i < |s| ==> IsDigit(s[i])
  }

  /** `phoneSanitize(phone) || '91'` */
  function Dest(phone: string, keep: nat): string
  {
    var d := SanitizePhone(phone, keep);
    if d == "" then DEFAULT_DEST else d
  }

  /** The destination is a non-empty run of digits: the last `keep` digits of
      the number, or the country code when it has none. */
  lemma DestMeans(phone: string, keep: nat)
    requires keep > 0
    ensures var d := Dest(phone, keep);
      && d != "" && AllDigits(d)
      && (DigitsOnly(phone) == "" ==> d == DEFAULT_DEST)
      && (DigitsOnly(phone) != "" ==> d == SanitizePhone(phone, keep))
  {
  }

  /** A link to the destination of `phone` reads back as that destination
      and the message. */
  lemma DestLink(phone: string, keep: nat, msg: string)
    requires keep > 0
    ensures ParseLink(Link(Dest(phone, keep), msg)) == Some((Dest(phone, keep), msg))
    ensures Link(Dest(phone, keep), msg) != ""
  {
    DestMeans(phone, keep);
    LinkRoundTrip(Dest(phone, keep), msg);
    LinkNotEmpty(Dest(phone, keep), msg);
  }

  /** The placeholder number given by the order pages goes to the country
      code alone. */
  lemma PlaceholderDest()
    ensures Dest(PLACEHOLDER_PHONE, 10) == DEFAULT_DEST && Dest(PLACEHOLDER_PHONE, 12) == DEFAULT_DEST
  {
    PlaceholderDigits();
    CountryCodeDest(PLACEHOLDER_PHONE, 10);
    CountryCodeDest(PLACEHOLDER_PHONE, 12);
  }

  /** The digits of the placeholder number are the country code. */
  lemma PlaceholderDigits()
    ensures DigitsOnly(PLACEHOLDER_PHONE) == DEFAULT_DEST
  {
    assert PLACEHOLDER_PHONE == "+" + DEFAULT_DEST + "XXXXXXXXXX";
    MaskedDigits("+", DEFAULT_DEST, "XXXXXXXXXX");
  }

  /** The digits of a number written as a sign, digits and a mask are those
      digits. */
  lemma MaskedDigits(sign: string, code: string, mask: string)
    requires forall i :: 0 <= i < |sign| ==> !IsDigit(sign[i])
    requires forall i :: 0 <= i < |code| ==> IsDigit(code[i])
    requires forall i :: 0 <= i < |mask| ==> !IsDigit(mask[i])
    ensures DigitsOnly(sign + code + mask) == code
  {
    DigitsOnlyAppend(sign + code, mask);
    DigitsOnlyAppend(sign, code);
    DigitsOnlyNone(sign);
    DigitsOnlyOfDigits(code);
    DigitsOnlyNone(mask);
  }

  /** A number whose digits are the country code goes to it. */
  lemma CountryCodeDest(phone: string, keep: nat)
    requires DigitsOnly(phone) == DEFAULT_DEST && keep >= 2
    ensures Dest(phone, keep) == DEFAULT_DEST
  {
  }

  predicate IsQueryMark(c: char)
  {
    c == '?'
  }

  /** Reads a link back: the number runs from the prefix to the first '?',
      which must open the `text` parameter; the rest is decoded. */
  function ParseLink(url: string): Option<(string, string)>
  {
    if |url| < |WA_PREFIX| || url[..|WA_PREFIX|] != WA_PREFIX then None
    else
      var rest := url[|WA_PREFIX|..];
      match FindIndex(rest, IsQueryMark)
      case None => None
      case Some(j) =>
        if j + |TEXT_PARAM| > |rest| || rest[j..j + |TEXT_PARAM|] != TEXT_PARAM then None
        else match DecodeURIComponent(rest[j + |TEXT_PARAM|..])
          case None => None
          case Some(m) => Some((rest[..j], m))
  }

  /** A link to a number made of digits carries that number and the exact
      message: the encoded text cannot end the number or the parameter early. */
  lemma LinkRoundTrip(dest: string, msg: string)
    requires AllDigits(dest)
    ensures ParseLink(Link(dest, msg)) == Some((dest, msg))
  {
    var q := EncodeRFC3986(msg);
    var rest := dest + TEXT_PARAM + q;
    assert Link(dest, msg) == WA_PREFIX + rest;
    PrefixSplit(WA_PREFIX, rest);
    QueryAfterDigits(dest, TEXT_PARAM, q);
    EncodeRoundTrip(msg);
  }

  /** A prefix glued to a string is cut off again by its length. */
  lemma PrefixSplit(prefix: string, rest: string)
    ensures (prefix + rest)[..|prefix|] == prefix && (prefix + rest)[|prefix|..] == rest
  {
  }

  /** After a run of digits, a parameter opening with '?' is where the first
      '?' is, and the pieces around it come back out. */
  lemma QueryAfterDigits(dest: string, param: string, q: string)
    requires AllDigits(dest)
    requires |param| > 0 && param[0] == '?'
    ensures var rest := dest + param + q;
      && FindIndex(rest, IsQueryMark) == Some(|dest|)
      && rest[|dest|..|dest| + |param|] == param
      && rest[|dest| + |param|..] == q
      && rest[..|dest|] == dest
  {
    var rest := dest + param + q;
    assert IsQueryMark(rest[|dest|]);
    forall j | 0 <= j < |dest| ensures !IsQueryMark(rest[j]) {
      assert rest[j] == dest[j];
    }
  }

  /** `${name} x${qty} = ${formatINR(lineTotal)}`; the storefront's builder
      escapes the name first. */
  function ItemLine(it: WaItem, fmt: real -> string, escape: bool): string
  {
    (if escape then SafeTxt(it.name) else it.name) + " x" + IntToString(it.qty) + " = " + fmt(it.lineTotal)
  }

  /** One line per dish, in order. */
  function ItemLines(items: seq<WaItem>, fmt: real -> string, escape: bool): (r: seq<string>)
  {
    seq(|items|, k requires 0 <= k < |items| => ItemLine(items[k], fmt, escape))
  }

  /** The lines of the storefront builder and of the first order page:
      greeting, "Order:", the dishes, the total, a blank line, the customer
      with the phone's last `keep` digits, the address. */
  function OrderLines(items: seq<WaItem>, c: Customer, total: real, fmt: real -> string, escape: bool, keep: nat): seq<string>
  {
    [GREETING, "Order:"] + ItemLines(items, fmt, escape)
    + ["Total: " + fmt(total), "", "Customer: " + c.name + " (" + SanitizePhone(c.phone, keep) + ")", "Address: " + c.address]
  }

  /** The lines of the second order page's fallback; the payment line is
      there only when a payment method is given. */
  function OrderLinesV2(items: seq<WaItem>, c: Customer, total: real, pay: string, fmt: real -> string): seq<string>
  {
    [GREETING, "Here’s my order:"] + ItemLines(items, fmt, false)
    + ["Total: " + fmt(total), "", "Name: " + c.name, "Phone: " + SanitizePhone(c.phone, 12), "Address: " + c.address]
    + (if pay != "" then ["Payment: " + pay] else [])
  }

  predicate CustomerComplete(c: Customer)
  {
    c.name != "" && c.phone != "" && c.address != ""
  }

  /** AI.buildWhatsAppLink: "" for a missing or empty item list or an
      incomplete customer; a zero total is replaced by the cart's total. */
  function AiLink(items: Option<seq<WaItem>>, c: Customer, total: real, cartTotal: real, phone: string, fmt: real -> string): string
  {
    if items.None? || items.value == [] || !CustomerComplete(c) then ""
    else Link(Dest(phone, 10), Join(OrderLines(items.value, c, if total != 0.0 then total else cartTotal, fmt, true, 10), "\n"))
  }

  /** The first order page's fallback: an empty item list is accepted. */
  function FallbackLink(items: Option<seq<WaItem>>, c: Customer, total: real, phone: string, fmt: real -> string): string
  {
    if items.None? || !CustomerComplete(c) then ""
    else Link(Dest(phone, 12), Join(OrderLines(items.value, c, total, fmt, false, 12), "\n"))
  }

  /** The second order page's fallback. */
  function FallbackLinkV2(items: Option<seq<WaItem>>, c: Customer, total: real, pay: string, phone: string, fmt: real -> string): string
  {
    if items.None? || items.value == [] || !CustomerComplete(c) then ""
    else Link(Dest(phone, 12), Join(OrderLinesV2(items.value, c, total, pay, fmt), "\n"))
  }

  lemma LinkNotEmpty(dest: string, msg: string)
    ensures Link(dest, msg) != ""
  {
    assert |Link(dest, msg)| >= |WA_PREFIX|;
  }

  /** Every part joined into a message can be found in it. */
  lemma {:induction false} JoinContains(parts: seq<string>, sep: string, k: nat)
    requires k < |parts|
    ensures Contains(Join(parts, sep), parts[k])
  {
    if |parts| == 1 {
      ContainsSelf(parts[0]);
    } else if k == 0 {
      var w := Join(parts, sep);
      assert w == parts[0] + (sep + Join(parts[1..], sep));
      assert w[0..|parts[0]|] == parts[0];
      assert Occurs(w, parts[0], 0);
    } else {
      JoinContains(parts[1..], sep, k - 1);
      ContainsInJoin(parts[0] + sep, Join(parts[1..], sep), "", parts[k]);
      assert parts[0] + sep + Join(parts[1..], sep) + "" == Join(parts, sep);
    }
  }

  /** The message names every dish, in the format of its builder. */
  lemma OrderLinesNameItems(items: seq<WaItem>, c: Customer, total: real, fmt: real -> string, escape: bool, keep: nat)
    ensures forall k :: 0 <= k < |items| ==>
      Contains(Join(OrderLines(items, c, total, fmt, escape, keep), "\n"), ItemLine(items[k], fmt, escape))
  {
    var mid := ItemLines(items, fmt, escape);
    var tail := ["Total: " + fmt(total), "", "Customer: " + c.name + " (" + SanitizePhone(c.phone, keep) + ")", "Address: " + c.address];
    forall k | 0 <= k < |items| ensures Contains(Join(OrderLines(items, c, total, fmt, escape, keep), "\n"), ItemLine(items[k], fmt, escape)) {
      MiddleLine([GREETING, "Order:"], mid, tail, k);
    }
  }

  lemma OrderLinesV2NameItems(items: seq<WaItem>, c: Customer, total: real, pay: string, fmt: real -> string)
    ensures forall k :: 0 <= k < |items| ==>
      Contains(Join(OrderLinesV2(items, c, total, pay, fmt), "\n"), ItemLine(items[k], fmt, false))
  {
    var mid := ItemLines(items, fmt, false);
    var fixed := ["Total: " + fmt(total), "", "Name: " + c.name, "Phone: " + SanitizePhone(c.phone, 12), "Address: " + c.address];
    var tail := fixed + (if pay != "" then ["Payment: " + pay] else []);
    assert OrderLinesV2(items, c, total, pay, fmt) == [GREETING, "Here’s my order:"] + mid + tail;
    forall k | 0 <= k < |items| ensures Contains(Join(OrderLinesV2(items, c, total, pay, fmt), "\n"), ItemLine(items[k], fmt, false)) {
      MiddleLine([GREETING, "Here’s my order:"], mid, tail, k);
    }
  }

  /** A line in the middle part of a three-part message is in the joined
      message. */
  lemma MiddleLine(head: seq<string>, mid: seq<string>, tail: seq<string>, k: nat)
    requires k < |mid|
    ensures Contains(Join(head + mid + tail, "\n"), mid[k])
  {
    var lines := head + mid + tail;
    assert lines[|head| + k] == mid[k];
    JoinContains(lines, "\n", |head| + k);
  }

  /** The storefront's link is empty exactly when the guard refuses; otherwise
      it reads back as the sanitised number (or the country code) and the
      message, whose total falls back to the cart's when none is given. */
  lemma AiLinkMeans(items: Option<seq<WaItem>>, c: Customer, total: real, cartTotal: real, phone: string, fmt: real -> string)
    ensures var url := AiLink(items, c, total, cartTotal, phone, fmt);
      && (url == "" <==> items.None? || items.value == [] || !CustomerComplete(c))
      && (url != "" ==> ParseLink(url) == Some((Dest(phone, 10),
            Join(OrderLines(items.value, c, if total != 0.0 then total else cartTotal, fmt, true, 10), "\n"))))
  {
    if !(items.None? || items.value == [] || !CustomerComplete(c)) {
      var shown := if total != 0.0 then total else cartTotal;
      DestLink(phone, 10, Join(OrderLines(items.value, c, shown, fmt, true, 10), "\n"));
    }
  }

  /** The first order page's link is empty exactly when the guard refuses,
      which an empty list does not; otherwise it reads back as the number's
      last twelve digits (or the country code) and the message. */
  lemma FallbackLinkMeans(items: Option<seq<WaItem>>, c: Customer, total: real, phone: string, fmt: real -> string)
    ensures var url := FallbackLink(items, c, total, phone, fmt);
      && (url == "" <==> items.None? || !CustomerComplete(c))
      && (url != "" ==> ParseLink(url) == Some((Dest(phone, 12), Join(OrderLines(items.value, c, total, fmt, false, 12), "\n"))))
  {
    if !(items.None? || !CustomerComplete(c)) {
      DestLink(phone, 12, Join(OrderLines(items.value, c, total, fmt, false, 12), "\n"));
    }
  }

  /** The second order page's link is empty exactly when the guard refuses;
      otherwise it reads back as the number and the message. */
  lemma FallbackLinkV2Means(items: Option<seq<WaItem>>, c: Customer, total: real, pay: string, phone: string, fmt: real -> string)
    ensures var url := FallbackLinkV2(items, c, total, pay, phone, fmt);
      && (url == "" <==> items.None? || items.value == [] || !CustomerComplete(c))
      && (url != "" ==> ParseLink(url) == Some((Dest(phone, 12), Join(OrderLinesV2(items.value, c, total, pay, fmt), "\n"))))
  {
    if !(items.None? || items.value == [] || !CustomerComplete(c)) {
      DestLink(phone, 12, Join(OrderLinesV2(items.value, c, total, pay, fmt), "\n"));
    }
  }

  /** The second page's message has a payment line, as its last line, exactly
      when a payment method is given; otherwise it ends with the address. */
  lemma PaymentLineIff(items: seq<WaItem>, c: Customer, total: real, pay: string, fmt: real -> string)
    ensures var lines := OrderLinesV2(items, c, total, pay, fmt);
      && |lines| == |items| + 7 + (if pay != "" then 1 else 0)
      && (pay != "" <==> lines[|lines| - 1] == "Payment: " + pay)
      && (pay == "" ==> lines[|lines| - 1] == "Address: " + c.address)
  {
    var lines := OrderLinesV2(items, c, total, pay, fmt);
    if pay == "" {
      var last := lines[|lines| - 1];
      assert last == "Address: " + c.address;
      assert last[0] == 'A';
      assert ("Payment: " + pay)[0] == 'P';
    }
  }

  /** Appends one line per dish, as `items.forEach(i => lines.push(...))`. */
  method PushItemLines(lines: seq<string>, items: seq<WaItem>, fmt: real -> string, escape: bool) returns (out: seq<string>)
    ensures out == lines + ItemLines(items, fmt, escape)
  {
    out := lines;
    var i := 0;
    while i < |items|
      invariant 0 <= i <= |items|
      invariant |out| == |lines| + i
      invariant out[..|lines|] == lines
      invariant forall k :: 0 <= k < i ==> out[|lines| + k] == ItemLine(items[k], fmt, escape)
    {
      out := out + [ItemLine(items[i], fmt, escape)];
      i := i + 1;
    }
    assert out == lines + ItemLines(items, fmt, escape);
  }

  /** AI.buildWhatsAppLink: the guards, then the lines pushed one by one. */
  method BuildAiLink(items: Option<seq<WaItem>>, c: Customer, total: real, cartTotal: real, phone: string, fmt: real -> string)
    returns (url: string)
    ensures url == AiLink(items, c, total, cartTotal, phone, fmt)
  {
    if items.None? || items.value == [] {
      return "";
    }
    if !CustomerComplete(c) {
      return "";
    }
    var lines := [GREETING, "Order:"];
    lines := PushItemLines(lines, items.value, fmt, true);
    var shown := if total != 0.0 then total else cartTotal;
    lines := lines + ["Total: " + fmt(shown)];
    lines := lines + [""];
    lines := lines + ["Customer: " + c.name + " (" + SanitizePhone(c.phone, 10) + ")"];
    lines := lines + ["Address: " + c.address];
    assert lines == OrderLines(items.value, c, shown, fmt, true, 10);
    var msg := Join(lines, "\n");
    url := Link(Dest(phone, 10), msg);
  }

  /** The first order page's fallback builder. */
  method BuildFallbackLink(items: Option<seq<WaItem>>, c: Customer, total: real, phone: string, fmt: real -> string)
    returns (url: string)
    ensures url == FallbackLink(items, c, total, phone, fmt)
  {
    if items.None? || !CustomerComplete(c) {
      return "";
    }
    var lines := [GREETING, "Order:"];
    lines := PushItemLines(lines, items.value, fmt, false);
    lines := lines + ["Total: " + fmt(total)];
    lines := lines + [""];
    lines := lines + ["Customer: " + c.name + " (" + SanitizePhone(c.phone, 12) + ")"];
    lines := lines + ["Address: " + c.address];
    assert lines == OrderLines(items.value, c, total, fmt, false, 12);
    var msg := Join(lines, "\n");
    url := Link(Dest(phone, 12), msg);
  }

  /** The second order page's fallback builder. */
  method BuildFallbackLinkV2(items: Option<seq<WaItem>>, c: Customer, total: real, pay: string, phone: string, fmt: real -> string)
    returns (url: string)
    ensures url == FallbackLinkV2(items, c, total, pay, phone, fmt)
  {
    if items.None? || items.value == [] || !CustomerComplete(c) {
      return "";
    }
    var lines := [GREETING, "Here’s my order:"];
    lines := PushItemLines(lines, items.value, fmt, false);
    lines := lines + ["Total: " + fmt(total)];
    lines := lines + [""];
    lines := lines + ["Name: " + c.name];
    lines := lines + ["Phone: " + SanitizePhone(c.phone, 12)];
    lines := lines + ["Address: " + c.address];
    if pay != "" {
      lines := lines + ["Payment: " + pay];
    }
    assert lines == OrderLinesV2(items.value, c, total, pay, fmt);
    var msg := Join(lines, "\n");
    url := Link(Dest(phone, 12), msg);
  }
}

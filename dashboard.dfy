/** `updateDashboardCards` (public/js/main.js): the auto-refresh writes each
    report value into its dashboard card, but only when the card's heading was
    found and the value is truthy. The four lookups are an array of slots, one
    per report key in `cardSelectors` order: None when the selector finds no
    element, otherwise the element's current text. `toLocaleString` is a
    parameter. */
module Dashboard {
  import opened Wrappers
  import opened MockData

  // ---------------------------------------------------------------------------
  // `String(value)`, the conversion behind `textContent = value`

  function DigitChar(d: nat): (c: char)
    requires d < 10
    ensures '0' <= c <= '9' && c as int - '0' as int == d
  {
    ('0' as int + d) as char
  }

  predicate IsDigits(s: string)
  {
    forall i :: 0 <= i < |s| ==> '0' <= s[i] <= '9'
  }

  /** The decimal digits of `n`: at least one, no leading zero. */
  function NatText(n: nat): (s: string)
    ensures |s| > 0 && IsDigits(s)
    ensures |s| > 1 ==> s[0] != '0'
  {
    if n < 10 then [DigitChar(n)] else NatText(n / 10) + [DigitChar(n % 10)]
  }

  /** The number a string of decimal digits denotes. */
  function DigitsValue(s: string): nat
    requires IsDigits(s)
  {
    if s == [] then 0 else DigitsValue(s[..|s| - 1]) * 10 + (s[|s| - 1] as int - '0' as int)
  }

  /** The digits written for `n` read back as `n`. */
  lemma {:induction false} NatTextRoundTrip(n: nat)
    ensures DigitsValue(NatText(n)) == n
  {
    if n >= 10 {
      var s := NatText(n);
      assert s[..|s| - 1] == NatText(n / 10);
      NatTextRoundTrip(n / 10);
    }
  }

  /** `String(n)` for an integer. */
  function IntText(n: int): string
  {
    if n < 0 then "-" + NatText(-n) else NatText(n)
  }

  /** `items.join(sep)` */
  function Join(items: seq<string>, sep: string): string
  {
    if items == [] then ""
    else if |items| == 1 then items[0]
    else Join(items[..|items| - 1], sep) + sep + items[|items| - 1]
  }

  /** `String(v)`: numbers in decimal, strings as they are, arrays as their
      elements joined by commas, objects as `[object Object]`. */
  function JsText(v: Value): string
  {
    match v
    case Num(n) => IntText(n)
    case Str(s) => s
    case Arr(items) => Join(seq(|items|, i requires 0 <= i < |items| => JsText(items[i])), ",")
    case Obj(_) => "[object Object]"
  }

  // ---------------------------------------------------------------------------
  // The cards

  /** The report keys in `cardSelectors` order. */
  const CardKeys: seq<string> := ReportKeys

  /** The text a card gets: the revenue as `$` and its locale form, every other
      value as `String(value)`. */
  function CardText(key: string, v: Value, localeFormat: int -> string): string
  {
    if key == "monthlyRevenue" then "$" + (if v.Num? then localeFormat(v.n) else JsText(v))
    else JsText(v)
  }

  /** One slot after the update: rewritten only when the element exists and the
      report value is truthy. */
  function NewCard(card: Option<string>, key: string, reports: Value, localeFormat: int -> string): (r: Option<string>)
    ensures r.Some? <==> card.Some?
    ensures r != card ==> Truthy(Field(reports, key))
  {
    var v := Field(reports, key);
    if card.Some? && Truthy(v) then Some(CardText(key, v.value, localeFormat)) else card
  }

  function UpdatedCards(cards: seq<Option<string>>, reports: Value, localeFormat: int -> string): seq<Option<string>>
    requires |cards| == |CardKeys|
  {
    seq(|cards|, i requires 0 <= i < |cards| => NewCard(cards[i], CardKeys[i], reports, localeFormat))
  }

  /** A card changes only when its element was found and its value is truthy;
      when both hold it shows that value's text. A missing element stays
      missing. */
  lemma CardGuard(cards: seq<Option<string>>, reports: Value, localeFormat: int -> string, i: nat)
    requires |cards| == |CardKeys| && i < |cards|
    ensures var v := Field(reports, CardKeys[i]);
      && (cards[i].Some? && Truthy(v) ==> UpdatedCards(cards, reports, localeFormat)[i] == Some(CardText(CardKeys[i], v.value, localeFormat)))
      && (!(cards[i].Some? && Truthy(v)) ==> UpdatedCards(cards, reports, localeFormat)[i] == cards[i])
      && (cards[i].None? ==> UpdatedCards(cards, reports, localeFormat)[i].None?)
  {
  }

  /** A report value of 0, or a missing one, leaves its card as it was. */
  lemma FalsyValueLeavesCard(cards: seq<Option<string>>, reports: Value, localeFormat: int -> string, i: nat)
    requires |cards| == |CardKeys| && i < |cards|
    requires Field(reports, CardKeys[i]) == Some(Num(0)) || Field(reports, CardKeys[i]).None?
    ensures UpdatedCards(cards, reports, localeFormat)[i] == cards[i]
  {
  }

  /** Refreshing twice with the same reports is refreshing once. */
  lemma UpdatedCardsIdempotent(cards: seq<Option<string>>, reports: Value, localeFormat: int -> string)
    requires |cards| == |CardKeys|
    ensures UpdatedCards(UpdatedCards(cards, reports, localeFormat), reports, localeFormat)
         == UpdatedCards(cards, reports, localeFormat)
  {
  }

  /** The text each card gets from the server's reports. */
  lemma ServerCardTexts(localeFormat: int -> string)
    ensures CardText(CardKeys[0], Num(45), localeFormat) == "45"
    ensures CardText(CardKeys[1], Num(12500), localeFormat) == "$" + localeFormat(12500)
    ensures CardText(CardKeys[2], Num(234), localeFormat) == "234"
    ensures CardText(CardKeys[3], Num(3), localeFormat) == "3"
  {
    assert NatText(45) == "45";
    assert NatText(234) == "234";
  }

  /** With every heading found, the server's reports fill the four cards with
      45, the revenue in locale form after `$`, 234 and 3. */
  lemma ServerReportsFillCards(cards: seq<Option<string>>, localeFormat: int -> string)
    requires |cards| == |CardKeys|
    requires forall i :: 0 <= i < |cards| ==> cards[i].Some?
    ensures UpdatedCards(cards, ReportsJson(TheReports), localeFormat)
         == [Some("45"), Some("$" + localeFormat(12500)), Some("234"), Some("3")]
  {
    var reports := ReportsJson(TheReports);
    ReportsPayload();
    ServerCardTexts(localeFormat);
    var u := UpdatedCards(cards, reports, localeFormat);
    assert u[0] == NewCard(cards[0], CardKeys[0], reports, localeFormat) == Some("45");
    assert u[1] == NewCard(cards[1], CardKeys[1], reports, localeFormat) == Some("$" + localeFormat(12500));
    assert u[2] == NewCard(cards[2], CardKeys[2], reports, localeFormat) == Some("234");
    assert u[3] == NewCard(cards[3], CardKeys[3], reports, localeFormat) == Some("3");
  }

  /** `updateDashboardCards(reports)` on the four card slots. */
  method UpdateDashboardCards(cards: array<Option<string>>, reports: Value, localeFormat: int -> string)
    requires cards.Length == |CardKeys|
    modifies cards
    ensures cards[..] == UpdatedCards(old(cards[..]), reports, localeFormat)
  {
    for k := 0 to cards.Length
      invariant forall i :: 0 <= i < k ==> cards[i] == NewCard(old(cards[i]), CardKeys[i], reports, localeFormat)
      invariant forall i :: k <= i < cards.Length ==> cards[i] == old(cards[i])
    {
      var key := CardKeys[k];
      var element := cards[k];
      var value := Field(reports, key);
      if element.Some? && Truthy(value) {
        if key == "monthlyRevenue" {
          cards[k] := Some("$" + (if value.value.Num? then localeFormat(value.value.n) else JsText(value.value)));
        } else {
          cards[k] := Some(JsText(value.value));
        }
      }
    }
  }
}

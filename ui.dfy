/** The remaining widgets of public/js/main.js: a button's loading state and
    the class string of a notification banner. */
module Ui {
  import opened Wrappers

  // ---------------------------------------------------------------------------
  // Loading state

  /** What `setLoadingState` touches on an element: `disabled`, its text
      content, and `dataset.originalText` (None while it was never set). */
  datatype ButtonState = ButtonState(disabled: bool, text: string, savedText: Option<string>)

  /** The text content of `<span class="loading"></span> Loading...`. */
  const LoadingText: string := " Loading..."

  /** `setLoadingState(element, isLoading)` on the element's state. Restoring
      when nothing was saved assigns `undefined` to `textContent`, which empties it. */
  function WithLoading(b: ButtonState, isLoading: bool): (r: ButtonState)
    ensures r.disabled == isLoading
    ensures isLoading ==> r.savedText == Some(b.text) && r.text == LoadingText
    ensures !isLoading ==> r.savedText == b.savedText
  {
    if isLoading then ButtonState(true, LoadingText, Some(b.text))
    else ButtonState(false, b.savedText.GetOr(""), b.savedText)
  }

  /** Turning loading on then off gives back the original text and an enabled
      element; the saved copy stays behind in the dataset. */
  lemma LoadingRoundTrip(b: ButtonState)
    ensures WithLoading(WithLoading(b, true), false) == ButtonState(false, b.text, Some(b.text))
  {
  }

  /** Turning loading on twice saves the loading text over the original, so
      turning it off then shows the loading text, not the original. */
  lemma LoadingTwiceLosesText(b: ButtonState)
    ensures WithLoading(WithLoading(b, true), true).savedText == Some(LoadingText)
    ensures WithLoading(WithLoading(WithLoading(b, true), true), false).text == LoadingText
  {
  }

  /** Turning loading off is idempotent, and on an element never put into the
      loading state it empties the text. */
  lemma LoadingOffIdempotent(b: ButtonState)
    ensures WithLoading(WithLoading(b, false), false) == WithLoading(b, false)
    ensures b.savedText.None? ==> WithLoading(b, false).text == ""
  {
  }

  /** A button element whose fields `setLoadingState` assigns in place. */
  class Button {
    var disabled: bool
    var text: string
    var savedText: Option<string>

    constructor (text: string)
      ensures State() == ButtonState(false, text, None)
    {
      this.disabled := false;
      this.text := text;
      this.savedText := None;
    }

    function State(): ButtonState
      reads this
    {
      ButtonState(disabled, text, savedText)
    }

    /** `setLoadingState(this, isLoading)` */
    method SetLoadingState(isLoading: bool)
      modifies this
      ensures State() == WithLoading(old(State()), isLoading)
    {
      if isLoading {
        disabled := true;
        var originalText := text;
        savedText := Some(originalText);
        text := LoadingText;
      } else {
        disabled := false;
        text := savedText.GetOr("");
      }
    }
  }

  // ---------------------------------------------------------------------------
  // Notifications

  /** The Bootstrap colour of a banner: `type` defaults to `info` when omitted
      (None), and `error` is shown as `danger`. */
  function AlertVariant(kind: Option<string>): (v: string)
    ensures kind.None? ==> v == "info"
    ensures kind == Some("error") ==> v == "danger"
    ensures kind.Some? && kind.value != "error" ==> v == kind.value
  {
    match kind
    case None => "info"
    case Some(t) => if t == "error" then "danger" else t
  }

  const AlertPrefix: string := "alert alert-"
  const AlertSuffix: string := " alert-dismissible fade show position-fixed"

  /** The `className` of a notification banner. */
  function AlertClass(kind: Option<string>): string
  {
    AlertPrefix + AlertVariant(kind) + AlertSuffix
  }

  /** Two banner kinds get the same class string exactly when they get the same
      colour: so `error` and `danger` look alike, and an omitted type looks like
      `info`. */
  lemma {:induction false} AlertClassInjective(a: Option<string>, b: Option<string>)
    ensures AlertClass(a) == AlertClass(b) <==> AlertVariant(a) == AlertVariant(b)
  {
    var va, vb := AlertVariant(a), AlertVariant(b);
    if AlertClass(a) == AlertClass(b) {
      var n := |AlertPrefix|;
      assert |va| == |vb|;
      assert va == AlertClass(a)[n..n + |va|];
      assert vb == AlertClass(b)[n..n + |vb|];
    }
  }

  lemma AlertClassExamples()
    ensures AlertClass(Some("error")) == AlertPrefix + "danger" + AlertSuffix
    ensures AlertClass(Some("success")) == AlertPrefix + "success" + AlertSuffix
    ensures AlertClass(None) == AlertClass(Some("info"))
    ensures AlertClass(Some("error")) == AlertClass(Some("danger"))
  {
  }

  /** A banner appended to the page. */
  datatype Banner = Banner(className: string, message: string)

  /** The document body, holding the banners shown so far. */
  class Document {
    var banners: seq<Banner>

    constructor ()
      ensures banners == []
    {
      banners := [];
    }

    /** `showNotification(message, type)`: a new banner is appended after the
        ones already shown; they stack without interacting. */
    method ShowNotification(message: string, kind: Option<string>)
      modifies this
      ensures banners == old(banners) + [Banner(AlertClass(kind), message)]
    {
      banners := banners + [Banner(AlertClass(kind), message)];
    }
  }
}

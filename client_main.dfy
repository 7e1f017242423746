/**
 * The behaviour farmapp/public/js/main.js attaches to every page: Bootstrap
 * validation of `.needs-validation` forms, `formatDate`, the `.ajax-form`
 * submission, the digit filter on numeric inputs and the colouring of
 * `.stock-level` indicators.
 */
module ClientMain {
  import opened Wrappers
  import opened Text
  import opened Seqs
  import opened ClientValues

  /** A `.needs-validation` form: its class list. */
  class ValidatedForm {
    var classes: set<string>

    constructor (classes: set<string>)
      ensures this.classes == classes
    {
      this.classes := classes;
    }

    /**
     * The submit listener: an invalid form has its submission prevented and
     * the event stopped; either way the form gains `was-validated`.
     */
    method OnSubmit(valid: bool) returns (prevented: bool, stopped: bool)
      modifies this
      ensures prevented == !valid && stopped == !valid
      ensures classes == old(classes) + {"was-validated"}
    {
      prevented, stopped := false, false;
      if !valid {
        prevented, stopped := true, true;
      }
      classes := classes + {"was-validated"};
    }
  }

  /**
   * `formatDate(dateString)`: a falsy argument gives the empty string; any
   * other is handed to the `es-MX` date formatting, a parameter here.
   */
  function FormatDate(dateString: Value, localized: Value -> string): (r: string)
    ensures !Truthy(dateString) ==> r == ""
    ensures Truthy(dateString) ==> r == localized(dateString)
  {
    if !Truthy(dateString) then "" else localized(dateString)
  }

  /** A missing date, `null` and the empty string all render as nothing, whatever the locale does. */
  lemma FormatDateOfNothing(localized: Value -> string)
    ensures FormatDate(Undefined, localized) == FormatDate(Null, localized) == FormatDate(Str(""), localized) == ""
  {
  }

  /** `showToast(title, message, type)`: what the toast shows. */
  datatype Toast = Toast(title: string, message: string, kind: string)

  /** The decoded reply of an `.ajax-form` request, or `Failed` when the request or its decoding throws. */
  datatype AjaxReply = Reply(redirect: Value, success: Value, message: Value) | Failed

  /** What the page does with the reply. */
  datatype AjaxEffect =
    | Navigate(url: string)
    | Notify(toast: Toast, resetForm: bool, reloadPage: bool)

  const SuccessTitle: string := "¡Éxito!"
  const CompletedText: string := "Operación completada correctamente."
  const RequestErrorText: string := "Ocurrió un error al procesar la solicitud."
  const UnexpectedErrorText: string := "Ocurrió un error inesperado. Por favor, intente nuevamente."

  /**
   * The branches of the submit handler: a truthy `redirect` navigates there;
   * else a truthy `success` shows a success toast and resets or reloads as
   * the form's `data-reset-on-success` and `data-reload-on-success` say; else
   * an error toast with the reply's message. A thrown error shows a fixed
   * message.
   */
  function AjaxEffectOf(reply: AjaxReply, resetOnSuccess: Option<string>, reloadOnSuccess: Option<string>): (e: AjaxEffect)
    ensures e.Navigate? <==> reply.Reply? && Truthy(reply.redirect)
    ensures e.Navigate? ==> e.url == ToText(reply.redirect)
    ensures e.Notify? ==> (e.toast.kind == "success" <==> reply.Reply? && Truthy(reply.success))
    ensures e.Notify? ==> e.toast.kind in {"success", "danger"}
    ensures e.Notify? ==> (e.resetForm <==> e.toast.kind == "success" && resetOnSuccess == Some("true"))
    ensures e.Notify? ==> (e.reloadPage <==> e.toast.kind == "success" && reloadOnSuccess == Some("true"))
    ensures e.Notify? && reply.Reply? ==>
              e.toast.message == ToText(Or(reply.message, Str(if Truthy(reply.success) then CompletedText else RequestErrorText)))
    ensures reply.Failed? ==> e == Notify(Toast("Error", UnexpectedErrorText, "danger"), false, false)
  {
    match reply
    case Failed => Notify(Toast("Error", UnexpectedErrorText, "danger"), false, false)
    case Reply(redirect, success, message) =>
      if Truthy(redirect) then Navigate(ToText(redirect))
      else if Truthy(success) then
        Notify(Toast(SuccessTitle, ToText(Or(message, Str(CompletedText))), "success"),
               resetOnSuccess == Some("true"), reloadOnSuccess == Some("true"))
      else Notify(Toast("Error", ToText(Or(message, Str(RequestErrorText))), "danger"), false, false)
  }

  /** A toast never shows an empty message: a missing one is replaced by the fallback text. */
  lemma ToastMessageNeverEmpty(reply: AjaxReply, resetOnSuccess: Option<string>, reloadOnSuccess: Option<string>)
    ensures var e := AjaxEffectOf(reply, resetOnSuccess, reloadOnSuccess);
            e.Notify? ==> e.toast.message != ""
  {
  }

  /** A redirect takes precedence: `success` and `message` are then not looked at. */
  lemma RedirectWins(redirect: Value, s1: Value, m1: Value, s2: Value, m2: Value, r1: Option<string>, r2: Option<string>)
    requires Truthy(redirect)
    ensures AjaxEffectOf(Reply(redirect, s1, m1), r1, r2) == AjaxEffectOf(Reply(redirect, s2, m2), r2, r1)
  {
  }

  const SpinnerHtml: string := "<span class=\"spinner-border spinner-border-sm\" role=\"status\" aria-hidden=\"true\"></span> Procesando..."

  /** The submit button of an `.ajax-form`. */
  class SubmitButton {
    var disabled: bool
    var html: string

    constructor (html: string)
      ensures !disabled && this.html == html
    {
      disabled := false;
      this.html := html;
    }

    /**
     * One submission: the button is disabled and shows a spinner while the
     * request is under way; the `finally` block restores it whatever the
     * reply, and the reply decides the effect.
     */
    method Submit(reply: AjaxReply, resetOnSuccess: Option<string>, reloadOnSuccess: Option<string>) returns (effect: AjaxEffect)
      modifies this
      ensures !disabled && html == old(html)
      ensures effect == AjaxEffectOf(reply, resetOnSuccess, reloadOnSuccess)
    {
      var originalText := html;
      disabled := true;
      html := SpinnerHtml;
      effect := AjaxEffectOf(reply, resetOnSuccess, reloadOnSuccess);
      disabled := false;
      html := originalText;
    }
  }

  /** `value.replace(/[^\d]/g, '')`: the decimal digits of the value, in order. */
  function DigitsOnly(s: string): (r: string)
    ensures AllDigits(r)
    ensures |r| <= |s|
  {
    Retain(s, IsDigit)
  }

  /** Every digit of the input survives as often as it occurs, and nothing else does. */
  lemma DigitsOnlyCounts(s: string, c: char)
    ensures multiset(DigitsOnly(s))[c] == if IsDigit(c) then multiset(s)[c] else 0
  {
    RetainCount(s, IsDigit, c);
  }

  /** The digits keep their order. */
  lemma DigitsOnlyInOrder(s: string)
    ensures IsSubsequence(DigitsOnly(s), s)
  {
    RetainSubsequence(s, IsDigit);
  }

  /** Filtering twice is filtering once, and text of digits only is left as it is. */
  lemma DigitsOnlyIdempotent(s: string)
    ensures DigitsOnly(DigitsOnly(s)) == DigitsOnly(s)
    ensures AllDigits(s) ==> DigitsOnly(s) == s
  {
    RetainAll(DigitsOnly(s), IsDigit);
    if AllDigits(s) {
      RetainAll(s, IsDigit);
    }
  }

  /** An `input[type="number"]`. */
  class NumericInput {
    var value: string

    constructor (value: string)
      ensures this.value == value
    {
      this.value := value;
    }

    /** The `input` listener: the value keeps only its digits. */
    method OnInput()
      modifies this
      ensures value == DigitsOnly(old(value))
    {
      value := DigitsOnly(value);
    }
  }

  /**
   * `parseInt(v)` of a `data-` attribute, with no radix: a missing one reads
   * as `undefined`, whose text parses to NaN.
   */
  function AttributeNumber(attr: Option<string>): (r: Option<int>)
    ensures attr.None? ==> r.None?
    ensures attr.Some? ==> r == ParseIntAuto(attr.value)
  {
    var text := if attr.None? then "undefined" else attr.value;
    assert attr.None? ==>
             !IsJsSpace(text[0]) && TrimStart(text) == text && Unsigned(text) == text && LeadingDigits(text) == [];
    ParseIntAuto(text)
  }

  /** `parseInt(element.dataset.min) || 0`: NaN, like 0, gives 0. */
  function MinimumOf(attr: Option<string>): (m: int)
    ensures AttributeNumber(attr).None? ==> m == 0
    ensures AttributeNumber(attr).Some? ==> m == AttributeNumber(attr).value
  {
    match AttributeNumber(attr)
    case None => 0
    case Some(n) => n
  }

  datatype Level = Danger | Warning | Success

  /**
   * The indicator's level: out of stock at or below 0, low up to the
   * minimum, and otherwise fine; a NaN current stock compares false both
   * times and counts as fine.
   */
  function LevelOf(current: Option<string>, min: Option<string>): (l: Level)
    ensures l == Danger <==> AttributeNumber(current).Some? && AttributeNumber(current).value <= 0
    ensures l == Warning <==> AttributeNumber(current).Some? && 0 < AttributeNumber(current).value <= MinimumOf(min)
    ensures AttributeNumber(current).None? ==> l == Success
  {
    match AttributeNumber(current)
    case None => Success
    case Some(c) => if c <= 0 then Danger else if c <= MinimumOf(min) then Warning else Success
  }

  /** The classes each level adds. */
  function LevelClasses(l: Level): (cs: set<string>)
    ensures l == Danger <==> "text-danger" in cs
    ensures l == Warning <==> "text-warning" in cs
    ensures l == Success <==> "text-success" in cs
    ensures "fw-bold" in cs <==> l != Success
  {
    match l
    case Danger => {"text-danger", "fw-bold"}
    case Warning => {"text-warning", "fw-bold"}
    case Success => {"text-success"}
  }

  /** A missing, unparseable or non-positive minimum never gives the low-stock colour. */
  lemma NoMinimumNoWarning(current: Option<string>, min: Option<string>)
    requires MinimumOf(min) <= 0
    ensures LevelOf(current, min) != Warning
  {
  }

  /** Exactly one colour class is added. */
  lemma OneColour(current: Option<string>, min: Option<string>)
    ensures var cs := LevelClasses(LevelOf(current, min));
            && ("text-danger" in cs || "text-warning" in cs || "text-success" in cs)
            && ("text-danger" in cs ==> "text-warning" !in cs && "text-success" !in cs)
            && ("text-warning" in cs ==> "text-success" !in cs)
  {
  }

  /** A `.stock-level` element: its `data-current` and `data-min` attributes and its class list. */
  class StockElement {
    const current: Option<string>
    const min: Option<string>
    var classes: set<string>

    constructor (current: Option<string>, min: Option<string>, classes: set<string>)
      ensures this.current == current && this.min == min && this.classes == classes
    {
      this.current := current;
      this.min := min;
      this.classes := classes;
    }

    /** The classes the indicator gains. */
    function Added(): set<string>
    {
      LevelClasses(LevelOf(current, min))
    }
  }

  /** The page-load pass over every `.stock-level` element: each gains the classes of its level. */
  method MarkStockLevels(elements: seq<StockElement>)
    modifies set e | e in elements
    ensures forall j :: 0 <= j < |elements| ==> elements[j].classes == old(elements[j].classes) + elements[j].Added()
  {
    var added := seq(|elements|, j requires 0 <= j < |elements| => elements[j].Added());
    var i := 0;
    while i < |elements|
      invariant 0 <= i <= |elements|
      invariant forall j :: 0 <= j < |elements| ==>
                  elements[j].classes == old(elements[j].classes) + (if elements[j] in elements[..i] then added[j] else {})
    {
      var element := elements[i];
      assert elements[..i + 1] == elements[..i] + [element];
      element.classes := element.classes + added[i];
      i := i + 1;
    }
  }
}

/**
 * The categories page script, farmapp/public/js/categories.js: the cards
 * drawn from `/api/categories`, the search box, the status filter and the
 * reset button that show and hide them, the edit dialog's reading of a
 * card, and the requests and toasts of creating, editing and deleting.
 */
module ClientCategories {
  import opened Wrappers
  import opened Text
  import opened ClientValues

  /** A category as `/api/categories` sends it. */
  datatype CategoryJson = CategoryJson(id: Value, name: Value, description: Value, status: Value, productCount: Value)

  /**
   * What a card shows and carries: the title, the description line, the
   * status badge, the product count, and the `data-` attributes of its edit
   * button.
   */
  datatype CardView = CardView(
    title: string,
    text: string,
    badge: string,
    count: string,
    id: string,
    editName: string,
    editDescription: string,
    editStatus: string)

  const NoDescription: string := "Sin descripción"

  /**
   * The card `loadCategories` draws for one category. The name, the
   * description and the count are taken as the text the card shows.
   */
  function CardOf(c: CategoryJson): (v: CardView)
    ensures v.title == ToText(c.name)
    ensures v.badge == "Activa" <==> Truthy(c.status)
    ensures v.badge == "Inactiva" <==> !Truthy(c.status)
    ensures Truthy(c.description) ==> v.text == ToText(c.description)
    ensures !Truthy(c.description) ==> v.text == NoDescription
    ensures v.editStatus == ToText(c.status)
  {
    CardView(
      ToText(c.name),
      ToText(Or(c.description, Str(NoDescription))),
      if Truthy(c.status) then "Activa" else "Inactiva",
      ToText(Or(c.productCount, Num(0))) + " productos",
      ToText(c.id),
      ToText(c.name),
      ToText(Or(c.description, Str(""))),
      ToText(c.status))
  }

  /** A category without a product count shows `0 productos`. */
  lemma MissingCountIsZero(c: CategoryJson)
    requires !Truthy(c.productCount)
    ensures CardOf(c).count == "0 productos"
  {
    assert NatToString(0) == "0";
  }

  /** The search rule: the lowercased title or description line contains the term. */
  predicate SearchShows(v: CardView, term: string) {
    Contains(Lower(v.title), term) || Contains(Lower(v.text), term)
  }

  /** The status filter rule: `''` shows all, `active` and `inactive` select by badge, anything else shows none. */
  predicate StatusShows(v: CardView, status: string) {
    status == "" || (status == "active" && v.badge == "Activa") || (status == "inactive" && v.badge == "Inactiva")
  }

  /** The status filter selects exactly the categories with the chosen status. */
  lemma StatusFilterFollowsStatus(c: CategoryJson, status: string)
    ensures StatusShows(CardOf(c), "")
    ensures StatusShows(CardOf(c), "active") <==> Truthy(c.status)
    ensures StatusShows(CardOf(c), "inactive") <==> !Truthy(c.status)
    ensures status != "" && status != "active" && status != "inactive" ==> !StatusShows(CardOf(c), status)
  {
  }

  /** An empty search shows every card. */
  lemma EmptySearchShowsAll(v: CardView)
    ensures SearchShows(v, "")
  {
    assert IsPrefix("", Lower(v.title));
  }

  /** The placeholder line is searched too: `sin` finds every category without a description. */
  lemma SearchFindsPlaceholder(c: CategoryJson)
    requires !Truthy(c.description)
    ensures SearchShows(CardOf(c), "sin")
  {
    assert CardOf(c).text == NoDescription;
    PlaceholderStartsWithSin();
  }

  lemma PlaceholderStartsWithSin()
    ensures IsPrefix("sin", Lower(NoDescription))
  {
    var d := NoDescription;
    assert |d| >= 3 && d[0] == 'S' && d[1] == 'i' && d[2] == 'n';
    LowerSin(d);
  }

  lemma LowerSin(d: string)
    requires |d| >= 3 && d[0] == 'S' && d[1] == 'i' && d[2] == 'n'
    ensures IsPrefix("sin", Lower(d))
  {
    var t := Lower(d);
    assert t[0] == LowerChar('S') == 's';
    assert t[..3] == "sin";
  }

  /** `button.dataset.status === 'true'`: the edit dialog's status checkbox. */
  predicate EditChecked(attr: string) {
    attr == "true"
  }

  /**
   * The checkbox shows a boolean status as it is; a numeric status, even 1,
   * leaves it unchecked.
   */
  lemma EditStatusOfCard(c: CategoryJson)
    ensures c.status.Bool? ==> (EditChecked(CardOf(c).editStatus) <==> c.status.b)
    ensures c.status.Num? ==> !EditChecked(CardOf(c).editStatus)
  {
    BoolTextRoundTrip(c.status);
  }

  /** The three actions of the page's dialogs. */
  datatype CategoryAction = Create | Update(id: string) | Remove(id: string)

  /** The JSON body of a create or an edit: the checkbox becomes 1 or 0. */
  datatype CategoryBody = CategoryBody(name: string, description: string, status: int)

  datatype CategoryRequest = CategoryRequest(verb: string, url: string, body: Option<CategoryBody>)

  const CategoriesUrl: string := "/api/categories"

  /** The request each action sends. */
  function RequestOf(action: CategoryAction, name: string, description: string, checked: bool): (r: CategoryRequest)
    ensures action.Create? ==> r.verb == "POST" && r.url == CategoriesUrl
    ensures action.Update? ==> r.verb == "PUT" && r.url == CategoriesUrl + "/" + action.id
    ensures action.Remove? ==> r.verb == "DELETE" && r.url == CategoriesUrl + "/" + action.id
    ensures r.body.None? <==> action.Remove?
    ensures r.body.Some? ==> r.body.value == CategoryBody(name, description, if checked then 1 else 0)
  {
    var body := CategoryBody(name, description, if checked then 1 else 0);
    match action
    case Create => CategoryRequest("POST", CategoriesUrl, Some(body))
    case Update(id) => CategoryRequest("PUT", CategoriesUrl + "/" + id, Some(body))
    case Remove(id) => CategoryRequest("DELETE", CategoriesUrl + "/" + id, None)
  }

  /** Editing and deleting a category address the same resource; different ids address different ones. */
  lemma RequestAddresses(a: string, b: string, name: string, description: string, checked: bool)
    ensures RequestOf(Update(a), name, description, checked).url == RequestOf(Remove(a), name, description, checked).url
    ensures a != b ==> RequestOf(Update(a), name, description, checked).url != RequestOf(Update(b), name, description, checked).url
  {
    var n := |CategoriesUrl| + 1;
    assert RequestOf(Update(a), name, description, checked).url[n..] == a;
    assert RequestOf(Update(b), name, description, checked).url[n..] == b;
  }

  /** A toast (`showToast(message, type)`). */
  datatype Toast = Toast(message: string, kind: string)

  /** The decoded reply of an action, or the message of the error the fetch or the decoding threw. */
  datatype ActionReply = Decoded(success: Value, message: Value) | Failed(error: string)

  /** What the page does after an action: the toast, and whether it closes the dialog, resets the form and reloads the cards. */
  datatype ActionOutcome = ActionOutcome(toast: Toast, closeDialog: bool, resetForm: bool, reload: bool)

  function SuccessText(action: CategoryAction): string {
    match action
    case Create => "Categoría creada correctamente"
    case Update(_) => "Categoría actualizada correctamente"
    case Remove(_) => "Categoría eliminada correctamente"
  }

  function ErrorText(action: CategoryAction): (t: string)
    ensures t != ""
  {
    match action
    case Create => "Error al crear la categoría"
    case Update(_) => "Error al actualizar la categoría"
    case Remove(_) => "Error al eliminar la categoría"
  }

  /**
   * A truthy `success` shows the action's success toast, closes its dialog
   * and reloads the cards, and a create also resets its form. Otherwise the
   * handler throws `new Error(message || fallback)` and the catch shows
   * `error.message || fallback` as a `danger` toast.
   */
  function OutcomeOf(action: CategoryAction, reply: ActionReply): (o: ActionOutcome)
    ensures o.reload <==> reply.Decoded? && Truthy(reply.success)
    ensures o.closeDialog <==> o.reload
    ensures o.resetForm <==> o.reload && action.Create?
    ensures o.reload ==> o.toast == Toast(SuccessText(action), "success")
    ensures !o.reload ==> o.toast.kind == "danger" && o.toast.message != ""
    ensures reply.Decoded? && !o.reload ==>
              o.toast.message == if Truthy(reply.message) then ToText(reply.message) else ErrorText(action)
    ensures reply.Failed? ==> o.toast.message == if reply.error == "" then ErrorText(action) else reply.error
  {
    match reply
    case Decoded(success, message) =>
      if Truthy(success) then ActionOutcome(Toast(SuccessText(action), "success"), true, action.Create?, true)
      else
        var thrown := ToText(Or(message, Str(ErrorText(action))));
        ActionOutcome(Toast(if thrown == "" then ErrorText(action) else thrown, "danger"), false, false, false)
    case Failed(error) =>
      ActionOutcome(Toast(if error == "" then ErrorText(action) else error, "danger"), false, false, false)
  }

  /** The same reply has the same effect for every action but for the texts and the reset. */
  lemma OnlySuccessReloads(a: CategoryAction, b: CategoryAction, reply: ActionReply)
    ensures OutcomeOf(a, reply).reload == OutcomeOf(b, reply).reload
    ensures OutcomeOf(a, reply).toast.kind == OutcomeOf(b, reply).toast.kind
  {
  }

  /**
   * The reply of `fetch('/api/categories')`: a decoded list, a decoded value
   * with a `length` that is not 0 but no `forEach` (such as an object), or
   * a failure of the fetch or of the decoding.
   */
  datatype ListReply = Items(items: seq<CategoryJson>) | NotAList | Unreadable

  const LoadErrorText: string := "Error al cargar las categorías"

  /** The toasts a load shows: none for a list, the error toast for either failure. */
  function LoadToasts(reply: ListReply): (ts: seq<Toast>)
    ensures reply.Items? <==> ts == []
  {
    if reply.Items? then [] else [Toast(LoadErrorText, "danger")]
  }

  /** One `.category-card`: what it shows, and whether it is displayed. */
  class Card {
    const view: CardView
    var visible: bool

    constructor (view: CardView)
      ensures this.view == view && visible
    {
      this.view := view;
      visible := true;
    }
  }

  /** The cards of a list, one per category, as `data.forEach` draws them. */
  function ViewsOf(data: seq<CategoryJson>): (views: seq<CardView>)
    ensures |views| == |data|
    ensures forall i :: 0 <= i < |data| ==> views[i] == CardOf(data[i])
  {
    seq(|data|, i requires 0 <= i < |data| => CardOf(data[i]))
  }

  /** The `forEach` over a non-empty list: one new, displayed card per view, in order. */
  method DrawCards(views: seq<CardView>) returns (cards: seq<Card>)
    ensures |cards| == |views|
    ensures forall i :: 0 <= i < |cards| ==> fresh(cards[i]) && cards[i].view == views[i] && cards[i].visible
    ensures forall i, j :: 0 <= i < j < |cards| ==> cards[i] != cards[j]
  {
    cards := [];
    var i := 0;
    while i < |views|
      invariant 0 <= i <= |views| && |cards| == i
      invariant forall j :: 0 <= j < i ==> fresh(cards[j]) && cards[j].view == views[j] && cards[j].visible
      invariant forall j, k :: 0 <= j < k < i ==> cards[j] != cards[k]
    {
      var card := new Card(views[i]);
      cards := cards + [card];
      i := i + 1;
    }
  }

  /** The page: the cards, whether the empty-list placeholder is shown, the two filter inputs and the toasts shown. */
  class CategoriesPage {
    var cards: seq<Card>
    var placeholder: bool
    var searchValue: string
    var statusValue: string
    var toasts: seq<Toast>

    constructor ()
      ensures cards == [] && !placeholder && searchValue == "" && statusValue == "" && toasts == []
    {
      cards, placeholder, searchValue, statusValue, toasts := [], false, "", "", [];
    }

    /**
     * `loadCategories()`: an empty list shows the placeholder; a list gets
     * one new, displayed card per category, whatever the filter inputs hold;
     * a value that is not a list clears the container before `forEach`
     * throws; each failure shows the error toast.
     */
    method LoadCategories(reply: ListReply)
      modifies this
      ensures searchValue == old(searchValue) && statusValue == old(statusValue)
      ensures toasts == old(toasts) + LoadToasts(reply)
      ensures reply.Items? ==> placeholder == (|reply.items| == 0)
      ensures reply.Items? ==> |cards| == |reply.items|
      ensures reply.Items? ==> forall i :: 0 <= i < |cards| ==>
                fresh(cards[i]) && cards[i].view == CardOf(reply.items[i]) && cards[i].visible
      ensures reply.Items? ==> forall i, j :: 0 <= i < j < |cards| ==> cards[i] != cards[j]
      ensures reply.NotAList? ==> cards == [] && !placeholder
      ensures reply.Unreadable? ==> cards == old(cards) && placeholder == old(placeholder)
    {
      match reply
      case Unreadable =>
        toasts := toasts + [Toast(LoadErrorText, "danger")];
      case NotAList =>
        cards, placeholder := [], false;
        toasts := toasts + [Toast(LoadErrorText, "danger")];
      case Items(data) =>
        if |data| == 0 {
          cards, placeholder := [], true;
          return;
        }
        cards := DrawCards(ViewsOf(data));
        placeholder := false;
    }

    /** The search box's `input` listener: each card is displayed exactly when it matches the lowercased input. */
    method Search(input: string)
      modifies this, cards
      ensures searchValue == input
      ensures cards == old(cards) && placeholder == old(placeholder) && statusValue == old(statusValue) && toasts == old(toasts)
      ensures forall j :: 0 <= j < |cards| ==> cards[j].visible == SearchShows(cards[j].view, Lower(input))
    {
      searchValue := input;
      var term := Lower(input);
      var i := 0;
      while i < |cards|
        invariant 0 <= i <= |cards|
        invariant cards == old(cards) && searchValue == input
        invariant placeholder == old(placeholder) && statusValue == old(statusValue) && toasts == old(toasts)
        invariant forall j :: 0 <= j < i ==> cards[j].visible == SearchShows(cards[j].view, term)
      {
        cards[i].visible := SearchShows(cards[i].view, term);
        i := i + 1;
      }
    }

    /** The status filter's `change` listener: each card is displayed exactly when its badge fits the choice. */
    method FilterStatus(value: string)
      modifies this, cards
      ensures statusValue == value
      ensures cards == old(cards) && placeholder == old(placeholder) && searchValue == old(searchValue) && toasts == old(toasts)
      ensures forall j :: 0 <= j < |cards| ==> cards[j].visible == StatusShows(cards[j].view, value)
    {
      statusValue := value;
      var i := 0;
      while i < |cards|
        invariant 0 <= i <= |cards|
        invariant cards == old(cards) && statusValue == value
        invariant placeholder == old(placeholder) && searchValue == old(searchValue) && toasts == old(toasts)
        invariant forall j :: 0 <= j < i ==> cards[j].visible == StatusShows(cards[j].view, value)
      {
        cards[i].visible := StatusShows(cards[i].view, value);
        i := i + 1;
      }
    }

    /** The reset button: both inputs are cleared and every card is displayed. */
    method ResetFilters()
      modifies this, cards
      ensures searchValue == "" && statusValue == ""
      ensures cards == old(cards) && placeholder == old(placeholder) && toasts == old(toasts)
      ensures forall j :: 0 <= j < |cards| ==> cards[j].visible
    {
      searchValue, statusValue := "", "";
      var i := 0;
      while i < |cards|
        invariant 0 <= i <= |cards|
        invariant cards == old(cards) && searchValue == "" && statusValue == ""
        invariant placeholder == old(placeholder) && toasts == old(toasts)
        invariant forall j :: 0 <= j < i ==> cards[j].visible
      {
        cards[i].visible := true;
        i := i + 1;
      }
    }

    /**
     * The end of a create, edit or delete: the outcome's toast is shown, and
     * on success the cards are loaded again (`reload` is that request's
     * reply), after the toast; a failed reload adds its own error toast.
     */
    method Answer(action: CategoryAction, reply: ActionReply, reload: ListReply) returns (outcome: ActionOutcome)
      modifies this
      ensures outcome == OutcomeOf(action, reply)
      ensures searchValue == old(searchValue) && statusValue == old(statusValue)
      ensures toasts == old(toasts) + [outcome.toast] + (if outcome.reload then LoadToasts(reload) else [])
      ensures !outcome.reload || reload.Unreadable? ==> cards == old(cards) && placeholder == old(placeholder)
      ensures outcome.reload && reload.NotAList? ==> cards == [] && !placeholder
      ensures outcome.reload && reload.Items? ==>
                && placeholder == (|reload.items| == 0)
                && |cards| == |reload.items|
                && (forall i :: 0 <= i < |cards| ==>
                      fresh(cards[i]) && cards[i].view == CardOf(reload.items[i]) && cards[i].visible)
                && (forall i, j :: 0 <= i < j < |cards| ==> cards[i] != cards[j])
    {
      outcome := OutcomeOf(action, reply);
      toasts := toasts + [outcome.toast];
      if outcome.reload {
        LoadCategories(reload);
      }
    }
  }
}

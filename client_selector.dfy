/** The API-backed select (`ClientSelector`): when told to, it fetches a
    list of rows from an endpoint with a bearer token, turns each row into
    an option (with fallbacks for a missing id or name), and tracks a
    loading flag and an error text. The fetch result and the random
    fallback suffix are parameters. */
module ClientSelector {
  import opened Optional
  import opened Text
  import opened Http

  /** A row id: the API may send a number or a string. */
  datatype ItemId = NumId(n: int) | StrId(s: string)

  /** A row as the API sends it; either property may be absent or null. */
  datatype ApiRow = ApiRow(id: Option<ItemId>, name: Option<string>)

  /** A row after normalisation (`ItemFromApi`). */
  datatype Item = Item(id: ItemId, name: string)

  /** The parsed body: an array of rows, or anything else. */
  datatype Body = JsonArray(rows: seq<ApiRow>) | JsonOther

  /** One `<option>` of the select. */
  datatype SelectOption = SelectOption(value: string, text: string)

  const DefaultOptionLabel: string := "Selecciona una opción"
  const NameFallback: string := "Nombre no disponible"
  const IdFallbackPrefix: string := "unknown-id-"
  const LoadingLabel: string := "Cargando..."
  const ErrorLabel: string := "Error (ver consola)"
  const UnexpectedFormat: string := "Formato de datos de API inesperado."
  const UnknownError: string := "Error desconocido al cargar datos."

  /** `!!error`: a null error and an empty message are both falsy. */
  predicate HasError(error: Option<string>)
  {
    error.Some? && error.value != ""
  }

  /** The rows as options' data, one per row and in order: a missing id is
      replaced by the fallback prefix and the row's random suffix, a
      missing or empty name by the fallback name. */
  function NormaliseRows(rows: seq<ApiRow>, randomSuffix: nat -> string): (items: seq<Item>)
    ensures |items| == |rows|
    ensures forall i :: 0 <= i < |rows| ==>
              items[i].id == (if rows[i].id.Some? then rows[i].id.value else StrId(IdFallbackPrefix + randomSuffix(i)))
    ensures forall i :: 0 <= i < |rows| ==>
              items[i].name == (if rows[i].name.Some? && rows[i].name.value != "" then rows[i].name.value else NameFallback)
  {
    seq(|rows|, i requires 0 <= i < |rows| =>
      Item(
        if rows[i].id.Some? then rows[i].id.value else StrId(IdFallbackPrefix + randomSuffix(i)),
        if rows[i].name.Some? && rows[i].name.value != "" then rows[i].name.value else NameFallback))
  }

  /** Every normalised item has a non-empty label, and a row that had an
      id keeps it. */
  lemma NormalisedItemsLabelled(rows: seq<ApiRow>, randomSuffix: nat -> string)
    ensures forall i :: 0 <= i < |rows| ==> NormaliseRows(rows, randomSuffix)[i].name != ""
    ensures forall i :: 0 <= i < |rows| && rows[i].id.Some? ==>
              NormaliseRows(rows, randomSuffix)[i].id == rows[i].id.value
  {
  }

  /** The error text of a failed request: `Error HTTP: <status> - ` and
      the body text, or the status text when the body is empty. */
  function HttpErrorMessage(status: nat, bodyText: string, statusText: string): (m: string)
    ensures StartsWith(m, "Error HTTP: ")
    ensures m != ""
  {
    "Error HTTP: " + IntToString(status) + " - " + (if bodyText != "" then bodyText else statusText)
  }

  /** Where a finished request leaves the items and the error. */
  datatype FetchResult = FetchResult(items: seq<Item>, error: Option<string>)

  function Settle(response: Response<Body>, randomSuffix: nat -> string): (r: FetchResult)
    ensures r.error.None? <==> response.Ok? && response.body.JsonArray?
    ensures r.error.Some? ==> r.items == []
    ensures response.Ok? && response.body.JsonArray? ==>
              r.items == NormaliseRows(response.body.rows, randomSuffix)
    ensures response.NotOk? ==> r.error == Some(HttpErrorMessage(response.status, response.bodyText, response.statusText))
    ensures response.Ok? && response.body.JsonOther? ==> r.error == Some(UnexpectedFormat)
    ensures response.Threw? ==> r.error == Some(response.message.GetOr(UnknownError))
  {
    match response
    case NotOk(status, bodyText, statusText) =>
      FetchResult([], Some(HttpErrorMessage(status, bodyText, statusText)))
    case Ok(body) =>
      if body.JsonArray? then FetchResult(NormaliseRows(body.rows, randomSuffix), None)
      else FetchResult([], Some(UnexpectedFormat))
    case Threw(message) =>
      FetchResult([], Some(message.GetOr(UnknownError)))
  }

  /** `disabled={loading || disabled || !!error}`. */
  function IsDisabled(loading: bool, disabled: bool, error: Option<string>): (b: bool)
    ensures b <==> loading || disabled || HasError(error)
  {
    loading || disabled || HasError(error)
  }

  /** `String(item.id)`. */
  function OptionValue(id: ItemId): string
  {
    match id
    case NumId(n) => IntToString(n)
    case StrId(s) => s
  }

  /** Two numeric ids that are different give options with different
      values: the value reads back as its id. */
  lemma NumericOptionValuesDistinct(a: int, b: int)
    requires a != b
    ensures OptionValue(NumId(a)) != OptionValue(NumId(b))
  {
    ParseIntOfIntToString(a);
    ParseIntOfIntToString(b);
  }

  /** The options of the select: the blank option first, labelled by
      priority loading, then error, then the default label; then, only
      when neither loading nor failed, one option per item in order. */
  function Options(loading: bool, error: Option<string>, items: seq<Item>, defaultOptionLabel: string)
    : (opts: seq<SelectOption>)
    ensures |opts| == 1 + (if !loading && !HasError(error) then |items| else 0)
    ensures opts[0].value == ""
    ensures opts[0].text == (if loading then LoadingLabel
                              else if HasError(error) then ErrorLabel
                              else defaultOptionLabel)
    ensures forall i :: 1 <= i < |opts| ==>
              opts[i] == SelectOption(OptionValue(items[i - 1].id), items[i - 1].name)
  {
    var blank := SelectOption("", if loading then LoadingLabel else if HasError(error) then ErrorLabel else defaultOptionLabel);
    if !loading && !HasError(error) then
      [blank] + seq(|items|, i requires 0 <= i < |items| => SelectOption(OptionValue(items[i].id), items[i].name))
    else [blank]
  }

  /** Item options are offered only by a select that can be used (unless
      the parent disabled it), and a usable select offers all of them. */
  lemma ItemsShownIffUsable(loading: bool, error: Option<string>, items: seq<Item>, defaultOptionLabel: string)
    requires items != []
    ensures |Options(loading, error, items, defaultOptionLabel)| > 1 <==> !IsDisabled(loading, false, error)
  {
  }

  /** A request that failed with a non-empty message leaves a disabled
      select whose only option reports the error. */
  lemma FailedFetchShowsError(response: Response<Body>, randomSuffix: nat -> string, disabled: bool)
    requires !(response.Ok? && response.body.JsonArray?)
    requires response.Threw? && response.message.Some? ==> response.message.value != ""
    ensures var r := Settle(response, randomSuffix);
            IsDisabled(false, disabled, r.error) &&
            Options(false, r.error, r.items, DefaultOptionLabel) == [SelectOption("", ErrorLabel)]
  {
    var r := Settle(response, randomSuffix);
    assert HasError(r.error);
  }

  /** A successful request lists one option per row, in row order, after
      the blank one. */
  lemma SuccessfulFetchListsRows(rows: seq<ApiRow>, randomSuffix: nat -> string, defaultLabel: string)
    ensures var r := Settle(Ok(JsonArray(rows)), randomSuffix);
            var opts := Options(false, r.error, r.items, defaultLabel);
            |opts| == |rows| + 1 && opts[0] == SelectOption("", defaultLabel) &&
            forall i :: 0 <= i < |rows| ==> opts[i + 1].text == NormaliseRows(rows, randomSuffix)[i].name
  {
  }

  class Selector {
    var items: seq<Item>
    var loading: bool
    var error: Option<string>

    constructor ()
      ensures items == [] && !loading && error == None
    {
      items := [];
      loading := false;
      error := None;
    }

    /** The start of the fetch effect: without a URL, a token or the
        go-ahead nothing is requested, and only a withheld go-ahead clears
        the items; otherwise loading starts with no error. */
    method StartFetch(apiUrl: string, apiToken: string, triggerFetch: bool) returns (requested: bool)
      modifies this
      ensures requested <==> apiUrl != "" && apiToken != "" && triggerFetch
      ensures requested ==> loading && error == None && items == old(items)
      ensures !requested ==> loading == old(loading) && error == old(error)
      ensures !requested ==> items == (if triggerFetch then old(items) else [])
    {
      if apiUrl == "" || apiToken == "" || !triggerFetch {
        if !triggerFetch {
          items := [];
        }
        return false;
      }
      loading := true;
      error := None;
      requested := true;
    }

    /** The end of the fetch effect: the outcome of the request sets the
        items and the error, and loading always stops. */
    method CompleteFetch(response: Response<Body>, randomSuffix: nat -> string)
      modifies this
      ensures !loading
      ensures items == Settle(response, randomSuffix).items
      ensures error == (if response.Ok? && response.body.JsonArray? then old(error)
                        else Settle(response, randomSuffix).error)
    {
      match response {
        case NotOk(status, bodyText, statusText) =>
          error := Some(HttpErrorMessage(status, bodyText, statusText));
          items := [];
        case Ok(body) =>
          if body.JsonArray? {
            items := NormaliseRows(body.rows, randomSuffix);
          } else {
            items := [];
            error := Some(UnexpectedFormat);
          }
        case Threw(message) =>
          error := Some(message.GetOr(UnknownError));
          items := [];
      }
      loading := false;
    }

    /** What the select shows: whether it is disabled and its options. */
    method Render(disabled: bool, defaultOptionLabel: string) returns (isDisabled: bool, options: seq<SelectOption>)
      ensures isDisabled <==> loading || disabled || HasError(error)
      ensures options == Options(loading, error, items, defaultOptionLabel)
      ensures loading ==> options == [SelectOption("", LoadingLabel)]
    {
      isDisabled := IsDisabled(loading, disabled, error);
      options := Options(loading, error, items, defaultOptionLabel);
    }
  }

  /** One full request: started with a URL, a token and the go-ahead, then
      settled; the select ends up showing exactly the settled outcome. */
  method FetchOnce(selector: Selector, apiUrl: string, apiToken: string, response: Response<Body>,
                   randomSuffix: nat -> string)
    returns (requested: bool)
    requires apiUrl != "" && apiToken != ""
    modifies selector
    ensures requested
    ensures !selector.loading
    ensures selector.items == Settle(response, randomSuffix).items
    ensures selector.error == Settle(response, randomSuffix).error
  {
    requested := selector.StartFetch(apiUrl, apiToken, true);
    selector.CompleteFetch(response, randomSuffix);
  }
}

/** The portfolio page (`ClientDisplay`): it loads the list of client
    companies, lets one be chosen by the value of its option, and then
    loads that company's details. The page also defines a formatter that
    turns a details field name into a title, which it does not call.
    Fetch results are parameters. */
module ClientDisplay {
  import opened Optional
  import opened Text
  import opened Http

  /** A client as listed (`ClientData`). */
  datatype ClientData = ClientData(id: int, name: string)

  /** A client as the API sends it; either property may be missing. */
  datatype RawClient = RawClient(id: Option<int>, name: Option<string>)

  datatype CompanyDetails = CompanyDetails(
    id: int,
    name: string,
    categoria: string,
    industria: string,
    servicios: string,
    necesidades: string)

  const FieldPrefix: string := "x_studio_"
  const MissingName: string := "N/A"
  const UnknownListError: string := "Ocurrió un error desconocido"
  const NoDetailsFound: string := "No se encontraron detalles para esta compañía"
  const UnknownDetailsError: string := "Ocurrió un error desconocido al obtener los detalles"

  // ---------------------------------------------------------------------
  // Formatting field names

  /** `word.charAt(0).toUpperCase() + word.slice(1)`. */
  function Capitalize(word: string): (r: string)
    ensures |r| == |word|
    ensures word != [] ==> r[0] == UpperChar(word[0]) && r[1..] == word[1..]
  {
    if word == [] then [] else [UpperChar(word[0])] + word[1..]
  }

  function CapitalizeAll(words: seq<string>): (r: seq<string>)
    ensures |r| == |words|
    ensures forall i :: 0 <= i < |words| ==> r[i] == Capitalize(words[i])
  {
    seq(|words|, i requires 0 <= i < |words| => Capitalize(words[i]))
  }

  /** `formatFieldName`: drop the first `x_studio_`, split on `_`,
      capitalise every word and join them with single spaces. */
  function FormatFieldName(field: string): string
  {
    Join(CapitalizeAll(Split(ReplaceFirst(field, FieldPrefix, ""), '_')), " ")
  }

  /** Capitalising never introduces a space. */
  lemma CapitalizeKeepsSpaces(word: string)
    requires ' ' !in word
    ensures ' ' !in Capitalize(word)
  {
    if word != [] {
      var r := Capitalize(word);
      assert r == [UpperChar(word[0])] + word[1..];
      assert word[0] != ' ';
      assert forall k :: 1 <= k < |word| ==> word[k] != ' ';
    }
  }

  /** A character absent from a string is absent from each of its pieces. */
  lemma {:induction false} SplitPiecesAvoid(s: string, sep: char, c: char)
    requires c !in s
    ensures forall k :: 0 <= k < |Split(s, sep)| ==> c !in Split(s, sep)[k]
    decreases |s|
  {
    if s != [] {
      assert s[0] != c;
      SplitPiecesAvoid(s[1..], sep, c);
      assert forall k :: 1 <= k < |s| ==> s[k] == s[1..][k - 1];
    }
  }

  /** Splitting the formatted name at its spaces gives back the
      capitalised segments, one word per `_`-separated segment, when the
      field name itself holds no space. */
  lemma FormatFieldNameWords(field: string)
    requires ' ' !in field
    ensures var segments := Split(ReplaceFirst(field, FieldPrefix, ""), '_');
            Split(FormatFieldName(field), ' ') == CapitalizeAll(segments) &&
            |Split(FormatFieldName(field), ' ')| == |segments|
  {
    var stripped := ReplaceFirst(field, FieldPrefix, "");
    ReplaceFirstKeeps(field, FieldPrefix, "", ' ');
    var segments := Split(stripped, '_');
    SplitPiecesAvoid(stripped, '_', ' ');
    var words := CapitalizeAll(segments);
    forall k | 0 <= k < |words| ensures ' ' !in words[k] {
      CapitalizeKeepsSpaces(segments[k]);
    }
    SplitJoin(words, ' ');
  }

  /** Replacing with a string free of `c` in a string free of `c` leaves
      a string free of `c`. */
  lemma ReplaceFirstKeeps(s: string, pat: string, rep: string, c: char)
    requires c !in s && c !in rep
    ensures c !in ReplaceFirst(s, pat, rep)
  {
    match IndexOfFrom(s, pat, 0)
    case None =>
    case Some(i) =>
      assert forall k :: 0 <= k < i ==> s[..i][k] == s[k];
      assert forall k :: i + |pat| <= k < |s| ==> s[i + |pat|..][k - (i + |pat|)] == s[k];
  }

  /** Capitalising a word that starts with a lower-case letter. */
  lemma CapitalizeLower(c: char, w: string)
    requires IsLowerAscii(c)
    ensures Capitalize([c] + w) == [UpperChar(c)] + w
  {
    assert ([c] + w)[1..] == w;
  }

  /** Only the prefix goes from `x_studio_necesidades`. */
  lemma StripNecesidades()
    ensures ReplaceFirst("x_studio_necesidades", FieldPrefix, "") == "necesidades"
  {
    var field := "x_studio_necesidades";
    assert field[..9] == FieldPrefix;
    assert IndexOfFrom(field, FieldPrefix, 0) == Some(0);
    assert field[9..] == "necesidades";
  }

  /** `necesidades` is one word, capitalised as `Necesidades`. */
  lemma CapitalizeNecesidades()
    ensures CapitalizeAll(Split("necesidades", '_')) == ["Necesidades"]
  {
    assert "Necesidades" == ['N'] + "ecesidades";
    assert "necesidades" == ['n'] + "ecesidades";
    SplitNoSep("necesidades", '_');
    CapitalizeLower('n', "ecesidades");
    assert UpperChar('n') == 'N';
  }

  /** The formatter maps the details field `x_studio_necesidades` to
      `Necesidades`. */
  lemma FormatNecesidades()
    ensures FormatFieldName("x_studio_necesidades") == "Necesidades"
  {
    StripNecesidades();
    CapitalizeNecesidades();
  }

  // ---------------------------------------------------------------------
  // The client list

  /** The list as received, one client per entry and in order: a missing
      or zero id becomes 0, a missing or empty name becomes `N/A`. */
  function NormaliseClients(raw: seq<RawClient>): (clients: seq<ClientData>)
    ensures |clients| == |raw|
    ensures forall i :: 0 <= i < |raw| ==> clients[i].id == raw[i].id.GetOr(0)
    ensures forall i :: 0 <= i < |raw| ==>
              clients[i].name == (if raw[i].name.Some? && raw[i].name.value != "" then raw[i].name.value else MissingName)
  {
    seq(|raw|, i requires 0 <= i < |raw| =>
      ClientData(
        raw[i].id.GetOr(0),
        if raw[i].name.Some? && raw[i].name.value != "" then raw[i].name.value else MissingName))
  }

  /** Every listed client has a non-empty name. */
  lemma NormalisedClientsNamed(raw: seq<RawClient>)
    ensures forall i :: 0 <= i < |raw| ==> NormaliseClients(raw)[i].name != ""
  {
  }

  /** The position of the first client with the given id. */
  function FirstWithId(clients: seq<ClientData>, id: int): (r: Option<nat>)
    ensures r.Some? ==> r.value < |clients| && clients[r.value].id == id
    ensures r.Some? ==> forall j :: 0 <= j < r.value ==> clients[j].id != id
    ensures r.None? ==> forall j :: 0 <= j < |clients| ==> clients[j].id != id
  {
    if |clients| == 0 then None
    else if clients[0].id == id then Some(0)
    else match FirstWithId(clients[1..], id)
      case None => None
      case Some(k) => Some(k + 1)
  }

  /** `clientData.find(c => c.id === selectedId) || null`, where a value
      that does not parse (`NaN`) equals no id. */
  function FindClient(clients: seq<ClientData>, selectedId: Option<int>): (r: Option<ClientData>)
    ensures r.Some? <==> selectedId.Some? && exists j :: 0 <= j < |clients| && clients[j].id == selectedId.value
    ensures r.Some? ==> r.value.id == selectedId.value
    ensures r.Some? ==>
              exists k :: 0 <= k < |clients| && r.value == clients[k] &&
                forall j :: 0 <= j < k ==> clients[j].id != selectedId.value
  {
    if selectedId.None? then None
    else match FirstWithId(clients, selectedId.value)
      case None => None
      case Some(k) => Some(clients[k])
  }

  /** Choosing the option of a client (whose value is its id as text)
      selects the first client carrying that id; when ids are unique, the
      very client chosen. Ids are exact integers written in plain decimal,
      which for JavaScript numbers means safe integers. */
  lemma ChoosingOptionFindsClient(clients: seq<ClientData>, i: nat)
    requires i < |clients|
    ensures var r := FindClient(clients, ParseInt(IntToString(clients[i].id)));
            r.Some? && r.value.id == clients[i].id
    ensures (forall j, k :: 0 <= j < k < |clients| ==> clients[j].id != clients[k].id) ==>
              FindClient(clients, ParseInt(IntToString(clients[i].id))) == Some(clients[i])
  {
    var id := clients[i].id;
    ParseIntOfIntToString(id);
    var k := FirstWithId(clients, id);
    assert k.Some? && k.value <= i;
    assert FindClient(clients, Some(id)) == Some(clients[k.value]);
  }

  /** Where a finished list request leaves the list and the error: the
      error of a failed request is `Error HTTP: <status>` or the thrown
      message. */
  datatype ListResult = ListResult(clients: Option<seq<ClientData>>, error: Option<string>)

  function SettleClients(response: Response<seq<RawClient>>): (r: ListResult)
    ensures r.clients.Some? <==> response.Ok?
    ensures r.error.None? <==> response.Ok?
    ensures response.Ok? ==> r.clients.value == NormaliseClients(response.body)
    ensures response.NotOk? ==> r.error == Some("Error HTTP: " + IntToString(response.status))
    ensures response.Threw? ==> r.error == Some(response.message.GetOr(UnknownListError))
  {
    match response
    case NotOk(status, _, _) => ListResult(None, Some("Error HTTP: " + IntToString(status)))
    case Ok(body) => ListResult(Some(NormaliseClients(body)), None)
    case Threw(message) => ListResult(None, Some(message.GetOr(UnknownListError)))
  }

  /** Where a finished details request leaves the details and their error:
      the first entry of a non-empty answer, otherwise an error. */
  datatype DetailsResult = DetailsResult(details: Option<CompanyDetails>, error: Option<string>)

  function SettleDetails(response: Response<Option<seq<CompanyDetails>>>): (r: DetailsResult)
    ensures r.details.Some? <==> response.Ok? && response.body.Some? && |response.body.value| > 0
    ensures r.details.Some? ==> r.details.value == response.body.value[0] && r.error.None?
    ensures r.details.None? ==> r.error.Some?
    ensures response.Ok? && (response.body.None? || response.body.value == []) ==> r.error == Some(NoDetailsFound)
    ensures response.NotOk? ==> r.error == Some("Error HTTP: " + IntToString(response.status))
    ensures response.Threw? ==> r.error == Some(response.message.GetOr(UnknownDetailsError))
  {
    match response
    case NotOk(status, _, _) => DetailsResult(None, Some("Error HTTP: " + IntToString(status)))
    case Ok(data) =>
      if data.Some? && |data.value| > 0 then DetailsResult(Some(data.value[0]), None)
      else DetailsResult(None, Some(NoDetailsFound))
    case Threw(message) => DetailsResult(None, Some(message.GetOr(UnknownDetailsError)))
  }

  // ---------------------------------------------------------------------
  // The page state

  class Portfolio {
    var clientData: seq<ClientData>
    var selectedClient: Option<ClientData>
    var companyDetails: Option<CompanyDetails>
    var loading: bool
    var loadingDetails: bool
    var error: Option<string>
    var errorDetails: Option<string>

    constructor ()
      ensures clientData == [] && selectedClient == None && companyDetails == None
      ensures !loading && !loadingDetails && error == None && errorDetails == None
    {
      clientData := [];
      selectedClient := None;
      companyDetails := None;
      loading := false;
      loadingDetails := false;
      error := None;
      errorDetails := None;
    }

    /** The start of `fetchClientData`: loading, and the list, the
        selection, the details and the error all cleared. */
    method StartFetchClients()
      modifies this
      ensures loading && error == None
      ensures clientData == [] && selectedClient == None && companyDetails == None
      ensures loadingDetails == old(loadingDetails) && errorDetails == old(errorDetails)
    {
      loading := true;
      error := None;
      clientData := [];
      selectedClient := None;
      companyDetails := None;
    }

    /** The end of `fetchClientData`: the list on success, the error
        otherwise; loading stops either way. */
    method FinishFetchClients(response: Response<seq<RawClient>>)
      modifies this
      ensures !loading
      ensures clientData == SettleClients(response).clients.GetOr(old(clientData))
      ensures error == (if response.Ok? then old(error) else SettleClients(response).error)
      ensures selectedClient == old(selectedClient) && companyDetails == old(companyDetails)
      ensures loadingDetails == old(loadingDetails) && errorDetails == old(errorDetails)
    {
      match response {
        case NotOk(status, _, _) =>
          error := Some("Error HTTP: " + IntToString(status));
        case Ok(data) =>
          clientData := NormaliseClients(data);
        case Threw(message) =>
          error := Some(message.GetOr(UnknownListError));
      }
      loading := false;
    }

    /** `handleClientChange`: select the first client whose id is the
        parsed value, or none; when one is found, its details are
        requested (the id is returned) and the details state is reset. */
    method HandleClientChange(value: string) returns (detailsFor: Option<int>)
      modifies this
      ensures selectedClient == FindClient(old(clientData), ParseInt(value))
      ensures detailsFor.Some? <==> selectedClient.Some?
      ensures detailsFor.Some? ==> detailsFor.value == selectedClient.value.id
      ensures detailsFor.Some? ==> loadingDetails && errorDetails == None && companyDetails == None
      ensures detailsFor.None? ==>
                loadingDetails == old(loadingDetails) && errorDetails == old(errorDetails)
                && companyDetails == old(companyDetails)
      ensures clientData == old(clientData) && loading == old(loading) && error == old(error)
    {
      var client := FindClient(clientData, ParseInt(value));
      detailsFor := Select(client);
    }

    /** Record the chosen client and, when there is one, reset the
        details state for its request. */
    method Select(client: Option<ClientData>) returns (detailsFor: Option<int>)
      modifies this
      ensures selectedClient == client
      ensures detailsFor == (if client.Some? then Some(client.value.id) else None)
      ensures client.Some? ==> loadingDetails && errorDetails == None && companyDetails == None
      ensures client.None? ==>
                loadingDetails == old(loadingDetails) && errorDetails == old(errorDetails)
                && companyDetails == old(companyDetails)
      ensures clientData == old(clientData) && loading == old(loading) && error == old(error)
    {
      selectedClient := client;
      detailsFor := None;
      if client.Some? {
        detailsFor := Some(client.value.id);
        loadingDetails := true;
        errorDetails := None;
        companyDetails := None;
      }
    }

    /** The end of `fetchCompanyDetails`: the details or their error;
        loading of details stops either way. */
    method FinishFetchDetails(response: Response<Option<seq<CompanyDetails>>>)
      modifies this
      ensures !loadingDetails
      ensures SettleDetails(response).details.Some? ==>
                companyDetails == SettleDetails(response).details && errorDetails == old(errorDetails)
      ensures SettleDetails(response).details.None? ==>
                errorDetails == SettleDetails(response).error && companyDetails == old(companyDetails)
      ensures clientData == old(clientData) && selectedClient == old(selectedClient)
      ensures loading == old(loading) && error == old(error)
    {
      match response {
        case NotOk(status, _, _) =>
          errorDetails := Some("Error HTTP: " + IntToString(status));
        case Ok(data) =>
          if data.Some? && |data.value| > 0 {
            companyDetails := Some(data.value[0]);
          } else {
            errorDetails := Some(NoDetailsFound);
          }
        case Threw(message) =>
          errorDetails := Some(message.GetOr(UnknownDetailsError));
      }
      loadingDetails := false;
    }
  }

  /** Choosing a client and receiving its details: the page ends up
      showing exactly the settled details or their error. */
  method ChooseAndReceive(page: Portfolio, value: string, response: Response<Option<seq<CompanyDetails>>>)
    returns (detailsFor: Option<int>)
    modifies page
    ensures page.selectedClient == FindClient(page.clientData, ParseInt(value))
    ensures detailsFor.Some? ==>
              !page.loadingDetails &&
              page.companyDetails == SettleDetails(response).details &&
              page.errorDetails == SettleDetails(response).error
  {
    detailsFor := page.HandleClientChange(value);
    if detailsFor.Some? {
      page.FinishFetchDetails(response);
    }
  }

  /** Loading the list and then choosing the option of the i-th listed
      client selects a client with that id and requests its details. */
  method LoadAndChoose(page: Portfolio, raw: seq<RawClient>, i: nat) returns (detailsFor: Option<int>)
    requires i < |raw|
    modifies page
    ensures page.clientData == NormaliseClients(raw)
    ensures detailsFor == Some(NormaliseClients(raw)[i].id)
    ensures page.selectedClient.Some? && page.selectedClient.value.id == raw[i].id.GetOr(0)
    ensures page.loadingDetails && !page.loading && page.error == None
  {
    page.StartFetchClients();
    page.FinishFetchClients(Ok(raw));
    ChoosingOptionFindsClient(page.clientData, i);
    detailsFor := page.HandleClientChange(IntToString(page.clientData[i].id));
  }
}

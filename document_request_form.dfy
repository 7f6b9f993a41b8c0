/** The document-request workflow form (`DocumentRequestForm`): a client,
    a client type, free-text notes and one checkbox per requestable
    document. Submit needs a client and at least one ticked document;
    closing the form clears every field and unticks every box. */
module DocumentRequestForm {
  import opened Forms

  /** The documents that can be requested (`documentsForAccountingSpain`),
      by id, in display order. */
  const DocumentIds: seq<string> := [
    "MODELO_036_037",
    "CERTIFICADO_CORRIENTE_AEAT",
    "CERTIFICADO_CORRIENTE_TGSS",
    "ULTIMAS_DECLARACIONES_IVA",
    "PAGOS_FRACCIONADOS_IRPF",
    "IMPUESTO_SOCIEDADES",
    "FACTURAS_EMITIDAS_PERIODO",
    "FACTURAS_RECIBIDAS_GASTOS_PERIODO",
    "EXTRACTOS_BANCARIOS_PERIODO",
    "NOMINAS_SEGUROS_SOCIALES",
    "ESCRITURAS_CIF_EMPRESA",
    "DNI_NIE_REPRESENTANTE"
  ]

  type Selection = map<string, bool>

  datatype DocumentRequestData = DocumentRequestData(
    clientId: string,
    clientType: string,
    selectedDocuments: Selection,
    additionalNotes: string)

  /** The text fields the selectors write through `handleFieldChange` and
      `handleSelectorChange`. */
  datatype TextField = ClientId | ClientType

  /** Whether a box is ticked: `selectedDocuments[id]`, where a missing
      key reads as `undefined`, i.e. unticked. */
  predicate Ticked(m: Selection, id: string)
  {
    id in m && m[id]
  }

  /** The ids of the ticked boxes (`trulySelectedDocuments`). */
  function TrulySelected(m: Selection): (ids: set<string>)
    ensures forall id :: id in ids <==> Ticked(m, id)
  {
    set id | id in m && m[id]
  }

  /** One unticked box per requestable document. */
  function InitialSelectedDocuments(): (m: Selection)
    ensures m.Keys == set id | id in DocumentIds
    ensures TrulySelected(m) == {}
  {
    map id | id in DocumentIds :: false
  }

  function InitialFormData(): DocumentRequestData
  {
    DocumentRequestData("", "", InitialSelectedDocuments(), "")
  }

  /** `handleCheckboxChange`: the box flips; a box that had no entry
      becomes ticked. */
  function Toggle(m: Selection, id: string): (r: Selection)
    ensures r.Keys == m.Keys + {id}
    ensures Ticked(r, id) == !Ticked(m, id)
    ensures forall k :: k in m && k != id ==> r[k] == m[k]
  {
    m[id := !Ticked(m, id)]
  }

  /** The checkbox handler and the submit check agree: flipping a box
      adds its id to the ids the submit sees, or takes it out. */
  lemma TrulySelectedToggle(m: Selection, id: string)
    ensures TrulySelected(Toggle(m, id))
            == if Ticked(m, id) then TrulySelected(m) - {id} else TrulySelected(m) + {id}
  {
  }

  /** Flipping a box twice restores the selection; for an id that had no
      entry it leaves an unticked one behind. */
  lemma ToggleTwice(m: Selection, id: string)
    ensures id in m ==> Toggle(Toggle(m, id), id) == m
    ensures id !in m ==> Toggle(Toggle(m, id), id) == m[id := false]
  {
  }

  /** The selection after closing: the same keys, all unticked. */
  function Untick(m: Selection): (r: Selection)
    ensures r.Keys == m.Keys
    ensures TrulySelected(r) == {}
  {
    map k | k in m :: false
  }

  lemma UntickInitial()
    ensures Untick(InitialSelectedDocuments()) == InitialSelectedDocuments()
  {
  }

  class DocumentRequest {
    var formData: DocumentRequestData

    constructor ()
      ensures formData == InitialFormData()
    {
      formData := InitialFormData();
    }

    /** The effect on `isOpen`: a closed form goes back to the initial
        fields, keeping every box it has but unticked. */
    method OpenChanged(isOpen: bool)
      modifies this
      ensures isOpen ==> formData == old(formData)
      ensures !isOpen ==> formData == DocumentRequestData("", "", Untick(old(formData).selectedDocuments), "")
    {
      if !isOpen {
        var resetSelectedDocs := Untick(formData.selectedDocuments);
        formData := InitialFormData().(selectedDocuments := resetSelectedDocs);
      }
    }

    /** `handleFieldChange` and `handleSelectorChange`: only the named
        field changes. */
    method HandleFieldChange(field: TextField, value: string)
      modifies this
      ensures field == ClientId ==> formData == old(formData).(clientId := value)
      ensures field == ClientType ==> formData == old(formData).(clientType := value)
    {
      match field
      case ClientId => formData := formData.(clientId := value);
      case ClientType => formData := formData.(clientType := value);
    }

    /** `handleNotesChange`: only the notes change. */
    method HandleNotesChange(value: string)
      modifies this
      ensures formData == old(formData).(additionalNotes := value)
    {
      formData := formData.(additionalNotes := value);
    }

    /** `handleCheckboxChange`: only the one box changes. */
    method HandleCheckboxChange(documentId: string)
      modifies this
      ensures formData == old(formData).(selectedDocuments := Toggle(old(formData).selectedDocuments, documentId))
    {
      formData := formData.(selectedDocuments := Toggle(formData.selectedDocuments, documentId));
    }

    /** `handleSubmit`: a missing client is reported first, then an empty
        selection; the client type is not required. On success the form
        data goes out whole, the selection as the full map of boxes. */
    method HandleSubmit() returns (outcome: Outcome<DocumentRequestData>)
      ensures formData.clientId == "" ==> outcome == Blocked(MissingClient)
      ensures formData.clientId != "" && TrulySelected(formData.selectedDocuments) == {} ==>
                outcome == Blocked(MissingDocuments)
      ensures outcome.Submitted? <==>
                formData.clientId != "" && TrulySelected(formData.selectedDocuments) != {}
      ensures outcome.Submitted? ==> outcome.payload == formData
    {
      if formData.clientId == "" {
        return Blocked(MissingClient);
      }
      var trulySelectedDocuments := set id | id in formData.selectedDocuments && formData.selectedDocuments[id];
      assert trulySelectedDocuments == TrulySelected(formData.selectedDocuments);
      if |trulySelectedDocuments| == 0 {
        return Blocked(MissingDocuments);
      }
      return Submitted(formData);
    }
  }
}

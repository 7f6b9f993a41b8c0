/** The data-extraction workflow form (`DataExtractForm`): a client, a
    client type, an extraction purpose, free-text notes and the files
    staged by the file staging area. Submit needs all three choices and
    at least one file, checked in that order. */
module DataExtractForm {
  import opened Forms
  import opened Optional
  import FileUpload

  type StagedFile = FileUpload.StagedFile

  datatype DataExtractData = DataExtractData(
    clientId: string,
    clientType: string,
    uploadedFiles: seq<StagedFile>,
    additionalNotes: string,
    extractionPurpose: string)

  /** The text fields written by name: the three selectors through
      `handleSelectorChange`, the notes through `handleInputChange`. */
  datatype TextField = ClientId | ClientType | ExtractionPurpose | AdditionalNotes

  /** The list the form hands to the file staging area as its allow-list. */
  const AcceptedFileExtensions: string := ".pdf,.doc,.docx,.xls,.xlsx,.csv,.txt,.xml,.jpg,.jpeg,.png"

  function InitialFormData(): DataExtractData
  {
    DataExtractData("", "", [], "", "")
  }

  function WithField(d: DataExtractData, field: TextField, value: string): DataExtractData
  {
    match field
    case ClientId => d.(clientId := value)
    case ClientType => d.(clientType := value)
    case ExtractionPurpose => d.(extractionPurpose := value)
    case AdditionalNotes => d.(additionalNotes := value)
  }

  /** The submit button is disabled while no file is staged. */
  predicate SubmitDisabled(d: DataExtractData)
  {
    |d.uploadedFiles| == 0
  }

  /** A form that was just opened or reset cannot be submitted, and a
      form becomes submittable by its button exactly when a file is staged. */
  lemma SubmitDisabledWithoutFiles(d: DataExtractData, files: seq<StagedFile>)
    ensures SubmitDisabled(InitialFormData())
    ensures SubmitDisabled(d.(uploadedFiles := files)) <==> files == []
  {
  }

  class DataExtract {
    var formData: DataExtractData

    constructor ()
      ensures formData == InitialFormData()
    {
      formData := InitialFormData();
    }

    /** The effect on `isOpen`: a closed form goes back to empty text
        fields and no files. */
    method OpenChanged(isOpen: bool)
      modifies this
      ensures formData == if isOpen then old(formData) else InitialFormData()
    {
      if !isOpen {
        formData := InitialFormData();
      }
    }

    /** `handleSelectorChange` and `handleInputChange`: the named field
        takes the value; the files and the other fields stay. */
    method HandleFieldChange(field: TextField, value: string)
      modifies this
      ensures formData == WithField(old(formData), field, value)
      ensures formData.uploadedFiles == old(formData).uploadedFiles
    {
      match field
      case ClientId => formData := formData.(clientId := value);
      case ClientType => formData := formData.(clientType := value);
      case ExtractionPurpose => formData := formData.(extractionPurpose := value);
      case AdditionalNotes => formData := formData.(additionalNotes := value);
    }

    /** `handleFilesUpdate`: the staged list replaces the files wholesale. */
    method HandleFilesUpdate(files: seq<StagedFile>)
      modifies this
      ensures formData == old(formData).(uploadedFiles := files)
    {
      formData := formData.(uploadedFiles := files);
    }

    /** `handleSubmit`: client, client type, purpose, then files; the
        first that is missing raises its alert, and only when none is
        missing does the form data go to `onSubmit`, unchanged. */
    method HandleSubmit() returns (outcome: Outcome<DataExtractData>)
      ensures formData.clientId == "" ==> outcome == Blocked(MissingClient)
      ensures formData.clientId != "" && formData.clientType == "" ==>
                outcome == Blocked(MissingClientType)
      ensures formData.clientId != "" && formData.clientType != "" && formData.extractionPurpose == "" ==>
                outcome == Blocked(MissingExtractionPurpose)
      ensures formData.clientId != "" && formData.clientType != "" && formData.extractionPurpose != ""
              && formData.uploadedFiles == [] ==>
                outcome == Blocked(MissingFiles)
      ensures outcome.Submitted? <==>
                formData.clientId != "" && formData.clientType != "" && formData.extractionPurpose != ""
                && formData.uploadedFiles != []
      ensures outcome.Submitted? ==> outcome.payload == formData
    {
      if formData.clientId == "" {
        return Blocked(MissingClient);
      }
      if formData.clientType == "" {
        return Blocked(MissingClientType);
      }
      if formData.extractionPurpose == "" {
        return Blocked(MissingExtractionPurpose);
      }
      if |formData.uploadedFiles| == 0 {
        return Blocked(MissingFiles);
      }
      return Submitted(formData);
    }
  }

  /** The staging area the form renders: the form's allow-list and no
      limit, with nothing staged, matching a form that holds no files. */
  method MountStaging(form: DataExtract) returns (staging: FileUpload.FileStaging)
    requires form.formData.uploadedFiles == []
    ensures fresh(staging) && staging.Valid()
    ensures staging.acceptedFileTypes == AcceptedFileExtensions && staging.maxFiles == None
    ensures staging.selectedFiles == form.formData.uploadedFiles
  {
    staging := new FileUpload.FileStaging(AcceptedFileExtensions, None);
  }

  /** The form wired to its file staging area: a batch dropped on the
      staging area grows its list by the admitted files, and whenever the
      staging area reports its list, that list becomes the form's files.
      The two agree afterwards whenever they agreed before. */
  method DropFiles(form: DataExtract, staging: FileUpload.FileStaging, batch: Option<seq<StagedFile>>)
    returns (notified: Option<seq<StagedFile>>)
    requires staging.Valid()
    requires staging.maxFiles == None
    modifies form, staging
    ensures staging.Valid()
    ensures batch.Some? ==>
              staging.selectedFiles
              == old(staging.selectedFiles) + FileUpload.Survivors(staging.acceptedFileTypes, batch.value)
    ensures notified.Some? ==>
              notified.value == staging.selectedFiles &&
              form.formData == old(form.formData).(uploadedFiles := staging.selectedFiles)
    ensures notified.None? ==>
              form.formData == old(form.formData) && staging.selectedFiles == old(staging.selectedFiles)
    ensures old(form.formData.uploadedFiles) == old(staging.selectedFiles) ==>
              form.formData.uploadedFiles == staging.selectedFiles &&
              (SubmitDisabled(form.formData) <==> staging.selectedFiles == [])
  {
    notified := staging.ProcessBatch(batch);
    if notified.Some? {
      form.HandleFilesUpdate(notified.value);
    }
  }

  /** Closing the form clears its files but not the staging area, which
      stays mounted: after a close the staged files are still listed
      while submit is disabled, and the next drop hands the form the old
      files together with the new ones. */
  method CloseThenDrop(form: DataExtract, staging: FileUpload.FileStaging, first: seq<StagedFile>, second: seq<StagedFile>)
    returns (formAfterClose: seq<StagedFile>, stagedAfterClose: seq<StagedFile>, formAfterDrop: seq<StagedFile>)
    requires staging.Valid() && staging.maxFiles == None
    requires form.formData.uploadedFiles == [] && staging.selectedFiles == []
    requires first != [] && FileUpload.Survivors(staging.acceptedFileTypes, first) == first
    requires second != [] && FileUpload.Survivors(staging.acceptedFileTypes, second) == second
    modifies form, staging
    ensures formAfterClose == [] && stagedAfterClose == first
    ensures formAfterDrop == first + second
  {
    var n1 := DropFiles(form, staging, Some(first));
    form.OpenChanged(false);
    formAfterClose, stagedAfterClose := form.formData.uploadedFiles, staging.selectedFiles;
    var n2 := DropFiles(form, staging, Some(second));
    formAfterDrop := form.formData.uploadedFiles;
  }
}

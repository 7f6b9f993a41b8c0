/** The file staging area (`FileUpload`): each incoming batch is filtered
    against the accepted-type list, the survivors are appended to the
    staged list, which is cut back to `maxFiles` when a limit is set, and
    files can be removed by name. One notice slot reports rejected types
    or an exceeded limit. The owner is told the complete list after every
    change. */
module FileUpload {
  import opened Optional
  import opened Text

  /** A picked file: its name, its media type (possibly empty), its size
      in bytes and its last-modified time. */
  datatype StagedFile = StagedFile(name: string, mimeType: string, size: nat, lastModified: int)

  /** The notice under the drop zone. */
  datatype Notice =
    | TypesRejected(acceptedFileTypes: string)  // "Algunos archivos no son del tipo permitido (...)"
    | LimitExceeded(maxFiles: nat)              // "No puedes seleccionar más de N archivo(s)..."

  // ---------------------------------------------------------------------
  // Accepted types and the match predicate

  predicate HasUpperAscii(s: string)
  {
    exists i :: 0 <= i < |s| && IsUpperAscii(s[i])
  }

  /** The allow-list: the comma-separated entries of `acceptedFileTypes`,
      each trimmed and lower-cased. */
  function AcceptedTypes(acceptedFileTypes: string): (r: seq<string>)
    ensures |r| == |Split(acceptedFileTypes, ',')|
    ensures forall i :: 0 <= i < |r| ==> TrimmedLower(Split(acceptedFileTypes, ',')[i], r[i])
    ensures forall i :: 0 <= i < |r| ==>
              ',' !in r[i] && !HasUpperAscii(r[i])
              && (r[i] != [] ==> !IsSpace(r[i][0]) && !IsSpace(r[i][|r[i]| - 1]))
  {
    var pieces := Split(acceptedFileTypes, ',');
    EntriesPinned(pieces);
    seq(|pieces|, i requires 0 <= i < |pieces| => NormaliseEntry(pieces[i]))
  }

  /** One entry of the allow-list: trimmed, then lower-cased. */
  function NormaliseEntry(piece: string): (r: string)
    ensures ',' !in piece ==> ',' !in r
    ensures !HasUpperAscii(r)
    ensures r != [] ==> !IsSpace(r[0]) && !IsSpace(r[|r| - 1])
  {
    NormaliseEntryFacts(piece);
    ToLower(Trim(piece))
  }

  /** `entry` is `piece` with the white space at both ends cut off,
      lower-cased. */
  predicate TrimmedLower(piece: string, entry: string)
  {
    exists lo, hi | 0 <= lo <= hi <= |piece| :: SpaceOutside(piece, lo, hi) && entry == ToLower(piece[lo..hi])
  }

  /** Each normalised entry is its own piece trimmed and lower-cased. */
  lemma EntriesPinned(pieces: seq<string>)
    ensures forall i :: 0 <= i < |pieces| ==> TrimmedLower(pieces[i], NormaliseEntry(pieces[i]))
  {
    forall i | 0 <= i < |pieces| ensures TrimmedLower(pieces[i], NormaliseEntry(pieces[i])) {
      var lo, hi := TrimSlice(pieces[i]);
      assert SpaceOutside(pieces[i], lo, hi) && NormaliseEntry(pieces[i]) == ToLower(pieces[i][lo..hi]);
    }
  }

  lemma NormaliseEntryFacts(piece: string)
    ensures var r := ToLower(Trim(piece));
            && (',' !in piece ==> ',' !in r)
            && !HasUpperAscii(r)
            && (r != [] ==> !IsSpace(r[0]) && !IsSpace(r[|r| - 1]))
  {
    var t := Trim(piece);
    var lo, hi := TrimSlice(piece);
    var r := ToLower(t);
    forall i | 0 <= i < |r|
      ensures !IsUpperAscii(r[i])
      ensures IsSpace(r[i]) ==> IsSpace(t[i])
      ensures ',' !in piece ==> r[i] != ','
    {
      LowerCharFacts(t[i]);
      assert t[i] == piece[lo + i];
    }
  }


  /** The extension a file is matched by: a dot and the lower-cased text
      after the last dot of its name (the whole name when it has none). */
  function Extension(name: string): (r: string)
    ensures r != [] && r[0] == '.' && '.' !in r[1..]
  {
    var pieces := Split(name, '.');
    var last := ToLower(pieces[|pieces| - 1]);
    assert forall i :: 0 <= i < |last| ==> last[i] != '.';
    "." + last
  }

  lemma ExtensionOfDotted(base: string, ext: string)
    requires '.' !in ext
    ensures Extension(base + "." + ext) == "." + ToLower(ext)
  {
    SplitLast(base, ext, '.');
  }

  lemma ExtensionOfUndotted(name: string)
    requires '.' !in name
    ensures Extension(name) == "." + ToLower(name)
  {
    SplitNoSep(name, '.');
  }

  /** One allow-list entry admits a file: an entry starting with a dot is
      compared with the file's extension, an entry containing a slash
      with its lower-cased media type. */
  predicate EntryAdmits(entry: string, f: StagedFile)
  {
    (StartsWith(entry, ".") && Extension(f.name) == entry)
    || ('/' in entry && ToLower(f.mimeType) == entry)
  }

  predicate Admitted(types: seq<string>, f: StagedFile)
  {
    exists k :: 0 <= k < |types| && EntryAdmits(types[k], f)
  }

  /** The files of a batch that the allow-list admits, in batch order. */
  function FilterAdmitted(types: seq<string>, files: seq<StagedFile>): (r: seq<StagedFile>)
    ensures |r| <= |files|
  {
    if files == [] then []
    else if Admitted(types, files[0]) then [files[0]] + FilterAdmitted(types, files[1..])
    else FilterAdmitted(types, files[1..])
  }

  /** A file survives exactly when it is in the batch and admitted. */
  lemma {:induction false} FilterAdmittedMembers(types: seq<string>, files: seq<StagedFile>)
    ensures forall f :: f in FilterAdmitted(types, files) <==> f in files && Admitted(types, f)
  {
    if files != [] {
      FilterAdmittedMembers(types, files[1..]);
      assert files == [files[0]] + files[1..];
    }
  }

  /** The batch shrinks exactly when some file in it is not admitted: this
      is when the type notice is raised. */
  lemma {:induction false} FilterAdmittedDrops(types: seq<string>, files: seq<StagedFile>)
    ensures |FilterAdmitted(types, files)| < |files| <==> exists i :: 0 <= i < |files| && !Admitted(types, files[i])
  {
    if files != [] {
      FilterAdmittedDrops(types, files[1..]);
      if !Admitted(types, files[0]) {
        assert !Admitted(types, files[0]);
      } else if exists i :: 0 <= i < |files| && !Admitted(types, files[i]) {
        var i :| 0 <= i < |files| && !Admitted(types, files[i]);
        assert files[1..][i - 1] == files[i];
      } else {
        forall i | 0 <= i < |files[1..]| ensures Admitted(types, files[1..][i]) {
          assert files[1..][i] == files[i + 1];
        }
      }
    }
  }

  /** Filtering keeps the input order: it distributes over concatenation. */
  lemma {:induction false} FilterAdmittedAppend(types: seq<string>, a: seq<StagedFile>, b: seq<StagedFile>)
    ensures FilterAdmitted(types, a + b) == FilterAdmitted(types, a) + FilterAdmitted(types, b)
  {
    if a != [] {
      FilterAdmittedAppend(types, a[1..], b);
      var ab := a + b;
      assert ab[0] == a[0] && ab[1..] == a[1..] + b;
      if Admitted(types, a[0]) {
        assert FilterAdmitted(types, ab) == [a[0]] + FilterAdmitted(types, a[1..] + b);
        assert FilterAdmitted(types, a) == [a[0]] + FilterAdmitted(types, a[1..]);
      } else {
        assert FilterAdmitted(types, ab) == FilterAdmitted(types, a[1..] + b);
        assert FilterAdmitted(types, a) == FilterAdmitted(types, a[1..]);
      }
    } else {
      assert a + b == b;
    }
  }

  /** The survivors of a batch: all of it when no allow-list is given. */
  function Survivors(acceptedFileTypes: string, batch: seq<StagedFile>): seq<StagedFile>
  {
    if acceptedFileTypes == "" then batch
    else FilterAdmitted(AcceptedTypes(acceptedFileTypes), batch)
  }

  // ---------------------------------------------------------------------
  // The limit

  /** `maxFiles` is truthy: present and not zero. */
  predicate Limited(maxFiles: Option<nat>)
  {
    maxFiles.Some? && maxFiles.value != 0
  }

  predicate Overflows(prev: seq<StagedFile>, incoming: seq<StagedFile>, maxFiles: Option<nat>)
  {
    Limited(maxFiles) && |prev| + |incoming| > maxFiles.value
  }

  /** The staged list after an add: the new files after the old ones, cut
      to the first `maxFiles` when the limit is exceeded. */
  function Combine(prev: seq<StagedFile>, incoming: seq<StagedFile>, maxFiles: Option<nat>): (r: seq<StagedFile>)
    ensures |r| <= |prev + incoming| && r == (prev + incoming)[..|r|]
    ensures Overflows(prev, incoming, maxFiles) ==> |r| == maxFiles.value
    ensures !Overflows(prev, incoming, maxFiles) ==> r == prev + incoming
  {
    var combined := prev + incoming;
    if Overflows(prev, incoming, maxFiles) then combined[..maxFiles.value] else combined
  }

  /** Files already staged are never displaced by new ones while the list
      is within the limit. */
  lemma ExistingFilesKept(prev: seq<StagedFile>, incoming: seq<StagedFile>, maxFiles: Option<nat>)
    requires Limited(maxFiles) ==> |prev| <= maxFiles.value
    ensures var r := Combine(prev, incoming, maxFiles); |prev| <= |r| && r[..|prev|] == prev
  {
    var r := Combine(prev, incoming, maxFiles);
    assert (prev + incoming)[..|prev|] == prev;
    if Overflows(prev, incoming, maxFiles) {
      assert r[..|prev|] == (prev + incoming)[..maxFiles.value][..|prev|];
    }
  }

  /** The staged list without the files called `name`. */
  function RemoveNamed(files: seq<StagedFile>, name: string): (r: seq<StagedFile>)
    ensures |r| <= |files|
  {
    if files == [] then []
    else if files[0].name != name then [files[0]] + RemoveNamed(files[1..], name)
    else RemoveNamed(files[1..], name)
  }

  /** Removal keeps exactly the files with another name. */
  lemma {:induction false} RemoveNamedMembers(files: seq<StagedFile>, name: string)
    ensures forall f :: f in RemoveNamed(files, name) <==> f in files && f.name != name
  {
    if files != [] {
      RemoveNamedMembers(files[1..], name);
      assert forall f :: f in files <==> f == files[0] || f in files[1..];
    }
  }

  lemma {:induction false} RemoveNamedAppend(a: seq<StagedFile>, b: seq<StagedFile>, name: string)
    ensures RemoveNamed(a + b, name) == RemoveNamed(a, name) + RemoveNamed(b, name)
  {
    if a != [] {
      RemoveNamedAppend(a[1..], b, name);
      var ab := a + b;
      assert ab[0] == a[0] && ab[1..] == a[1..] + b;
      if a[0].name != name {
        assert RemoveNamed(ab, name) == [a[0]] + RemoveNamed(a[1..] + b, name);
        assert RemoveNamed(a, name) == [a[0]] + RemoveNamed(a[1..], name);
      } else {
        assert RemoveNamed(ab, name) == RemoveNamed(a[1..] + b, name);
        assert RemoveNamed(a, name) == RemoveNamed(a[1..], name);
      }
    } else {
      assert a + b == b;
    }
  }

  // ---------------------------------------------------------------------
  // The type label

  function StripLeadingDot(s: string): string
  {
    if s != [] && s[0] == '.' then s[1..] else s
  }

  /** The entries shown after "Tipos: ": each entry trimmed, one leading
      dot removed, upper-cased. */
  function LabelEntries(acceptedFileTypes: string): seq<string>
  {
    var pieces := Split(acceptedFileTypes, ',');
    seq(|pieces|, i requires 0 <= i < |pieces| => ToUpper(StripLeadingDot(Trim(pieces[i]))))
  }

  function TypeLabel(acceptedFileTypes: string): string
  {
    if acceptedFileTypes == "" then "Todos los archivos permitidos"
    else "Tipos: " + Join(LabelEntries(acceptedFileTypes), ", ")
  }

  lemma StripLeadingDotLower(s: string)
    ensures StripLeadingDot(ToLower(s)) == ToLower(StripLeadingDot(s))
  {
    if s != [] && s[0] == '.' {
      assert ToLower(s)[1..] == ToLower(s[1..]);
    }
  }

  /** The label lists the allow-list the filter uses: entry by entry, the
      label shows the accepted type without its dot, up to case. */
  lemma LabelShowsAcceptedTypes(acceptedFileTypes: string)
    ensures |LabelEntries(acceptedFileTypes)| == |AcceptedTypes(acceptedFileTypes)|
    ensures forall i :: 0 <= i < |LabelEntries(acceptedFileTypes)| ==>
              ToLower(LabelEntries(acceptedFileTypes)[i]) == StripLeadingDot(AcceptedTypes(acceptedFileTypes)[i])
  {
    var pieces := Split(acceptedFileTypes, ',');
    forall i | 0 <= i < |pieces|
      ensures ToLower(LabelEntries(acceptedFileTypes)[i]) == StripLeadingDot(AcceptedTypes(acceptedFileTypes)[i])
    {
      var t := Trim(pieces[i]);
      LowerOfUpper(StripLeadingDot(t));
      StripLeadingDotLower(t);
    }
  }

  // ---------------------------------------------------------------------
  // The component's state

  class FileStaging {
    const acceptedFileTypes: string
    const maxFiles: Option<nat>
    var selectedFiles: seq<StagedFile>
    var error: Option<Notice>

    /** The staged list never exceeds a configured limit. */
    ghost predicate Valid()
      reads this
    {
      Limited(maxFiles) ==> |selectedFiles| <= maxFiles.value
    }

    constructor (acceptedFileTypes: string, maxFiles: Option<nat>)
      ensures Valid()
      ensures this.acceptedFileTypes == acceptedFileTypes && this.maxFiles == maxFiles
      ensures selectedFiles == [] && error == None
    {
      this.acceptedFileTypes := acceptedFileTypes;
      this.maxFiles := maxFiles;
      selectedFiles := [];
      error := None;
    }

    /** `addNewFiles`: append, cut to the limit, set or clear the limit
        notice, and report the new list to the owner. */
    method AddNewFiles(newFiles: seq<StagedFile>) returns (notified: seq<StagedFile>)
      requires Valid()
      modifies this
      ensures Valid()
      ensures selectedFiles == Combine(old(selectedFiles), newFiles, maxFiles)
      ensures error == if Overflows(old(selectedFiles), newFiles, maxFiles)
                       then Some(LimitExceeded(maxFiles.value)) else None
      ensures notified == selectedFiles
    {
      var combinedFiles := selectedFiles + newFiles;
      if Limited(maxFiles) && |combinedFiles| > maxFiles.value {
        error := Some(LimitExceeded(maxFiles.value));
        combinedFiles := combinedFiles[..maxFiles.value];
      } else {
        error := None;
      }
      notified := combinedFiles;
      selectedFiles := combinedFiles;
    }

    /** `handleFileProcessing`: a missing batch changes nothing; otherwise
        the notice is cleared, the batch is filtered (setting the type
        notice when a file was dropped), and a non-empty remainder is
        added, whose limit check has the last word on the notice. */
    method ProcessBatch(incoming: Option<seq<StagedFile>>) returns (notified: Option<seq<StagedFile>>)
      requires Valid()
      modifies this
      ensures Valid()
      ensures incoming.None? ==> selectedFiles == old(selectedFiles) && error == old(error) && notified == None
      ensures incoming.Some? ==>
                var accepted := Survivors(acceptedFileTypes, incoming.value);
                var dropped := |accepted| < |incoming.value|;
                if accepted == [] then
                  && selectedFiles == old(selectedFiles)
                  && notified == None
                  && error == (if dropped then Some(TypesRejected(acceptedFileTypes)) else None)
                else
                  && selectedFiles == Combine(old(selectedFiles), accepted, maxFiles)
                  && notified == Some(selectedFiles)
                  && error == (if Overflows(old(selectedFiles), accepted, maxFiles)
                               then Some(LimitExceeded(maxFiles.value)) else None)
      ensures notified.Some? ==> notified.value == selectedFiles
      ensures notified.None? ==> selectedFiles == old(selectedFiles)
      ensures incoming.Some? && !Limited(maxFiles) ==>
                selectedFiles == old(selectedFiles) + Survivors(acceptedFileTypes, incoming.value)
    {
      if incoming.None? {
        return None;
      }
      error := None;
      var filesArray := incoming.value;
      if acceptedFileTypes != "" {
        var acceptedTypesArray := AcceptedTypes(acceptedFileTypes);
        var originalLength := |filesArray|;
        filesArray := FilterAdmitted(acceptedTypesArray, filesArray);
        if |filesArray| < originalLength {
          error := Some(TypesRejected(acceptedFileTypes));
        }
      }
      notified := None;
      if |filesArray| > 0 {
        var list := AddNewFiles(filesArray);
        notified := Some(list);
      } else {
        assert selectedFiles + filesArray == selectedFiles;
      }
    }

    /** `removeFile`: drop every file with that name, report the new list,
        and clear the notice when a limit is set and the list is within
        it. */
    method RemoveFile(fileNameToRemove: string) returns (notified: seq<StagedFile>)
      requires Valid()
      modifies this
      ensures Valid()
      ensures selectedFiles == RemoveNamed(old(selectedFiles), fileNameToRemove)
      ensures error == if old(error).Some? && Limited(maxFiles) && |selectedFiles| <= maxFiles.value
                       then None else old(error)
      ensures notified == selectedFiles
    {
      var updatedFiles := RemoveNamed(selectedFiles, fileNameToRemove);
      notified := updatedFiles;
      if error.Some? && Limited(maxFiles) && |updatedFiles| <= maxFiles.value {
        error := None;
      }
      selectedFiles := updatedFiles;
    }
  }

  /** A batch of three admitted files against a limit of two, with nothing
      staged: two files end up staged and the limit notice is shown. */
  method LimitScenario(a: StagedFile, b: StagedFile, c: StagedFile)
    returns (staged: seq<StagedFile>, notified: Option<seq<StagedFile>>, notice: Option<Notice>)
    ensures staged == [a, b] && notified == Some([a, b])
    ensures notice == Some(LimitExceeded(2))
  {
    var staging := new FileStaging("", Some(2));
    notified := staging.ProcessBatch(Some([a, b, c]));
    staged := staging.selectedFiles;
    notice := staging.error;
  }
}

/** The import/export dialog of src/config.tsx: its selection state, the
    option lists it derives, and its handlers as sequential transitions. */
module Config {
  import opened Wrappers
  import opened Utils
  import I18n
  import opened Const
  import opened Host

  datatype ModalType = Import | Export

  /** An option of the field select: a field id and its name. */
  datatype FieldOption = FieldOption(value: string, text: string)

  /** An option of the file select: an attachment's index in the cell value
      and its name. */
  datatype FileOption = FileOption(value: int, text: string)

  /** `ConfigModalState`; `None` stands for `undefined`. */
  datatype ConfigModalState = ConfigModalState(
    loadingField: bool,
    loadingFile: bool,
    fieldId: Option<string>,
    recordId: Option<string>,
    fileIndex: Option<int>,
    fieldOptionList: Option<seq<FieldOption>>,
    fileOptionsList: Option<seq<FileOption>>,
    okLoading: bool,
    exportFileType: Option<ExportFileType>)

  /** The state the component is constructed with. */
  const INITIAL_STATE := ConfigModalState(true, false, None, None, None, None, None, false, None)

  /** JavaScript truthiness of an optional string: defined and non-empty. */
  predicate Truthy(s: Option<string>)
  {
    s.Some? && s.value != ""
  }

  // ---------------------------------------------------------------------
  // Submit button

  /** The selections the dialog asks for. */
  datatype Slot = FieldSlot | RecordSlot | FormatSlot | FileSlot

  /** The selections a mode needs before it can run. */
  function RequiredSlots(t: ModalType): set<Slot>
  {
    if t == Export then {FieldSlot, RecordSlot, FormatSlot} else {FieldSlot, RecordSlot, FileSlot}
  }

  /** Whether a selection has been made; any numeric file index counts,
      0 included. */
  predicate Filled(s: ConfigModalState, slot: Slot)
  {
    match slot
    case FieldSlot => Truthy(s.fieldId)
    case RecordSlot => Truthy(s.recordId)
    case FormatSlot => s.exportFileType.Some?
    case FileSlot => s.fileIndex.Some?
  }

  /** `getSubmitEnable`: the OK button is enabled exactly when every
      selection the mode needs has been made. */
  function SubmitEnable(t: ModalType, s: ConfigModalState): (enabled: bool)
    ensures enabled <==> forall slot :: slot in RequiredSlots(t) ==> Filled(s, slot)
  {
    assert FieldSlot in RequiredSlots(t) && RecordSlot in RequiredSlots(t);
    assert t == Import ==> FileSlot in RequiredSlots(t);
    if t == Export then
      Truthy(s.recordId) && Truthy(s.fieldId) && s.exportFileType.Some?
    else
      s.fileIndex.Some? && Truthy(s.fieldId) && Truthy(s.recordId)
  }

  /** The key whose word names a mode. */
  function ModeKey(t: ModalType): I18n.LangKey
  {
    if t == Export then I18n.Export else I18n.Import
  }

  function OtherMode(t: ModalType): ModalType
  {
    if t == Export then Import else Export
  }

  /** `getSubmitText`. The label is swapped: the export dialog's OK button
      shows the word for the other mode. */
  function SubmitText(t: ModalType): (k: I18n.LangKey)
    ensures k != ModeKey(t)
    ensures k == ModeKey(OtherMode(t))
  {
    if t == Export then I18n.Import else I18n.Export
  }

  datatype ButtonType = Primary | Default

  /** `getButtonType`: the record button is primary once a record is chosen. */
  function RecordButtonType(s: ConfigModalState): (b: ButtonType)
    ensures b == Primary <==> Truthy(s.recordId)
  {
    if Truthy(s.recordId) then Primary else Default
  }

  /** `getButtonTitle`: the record button's caption. */
  function RecordButtonTitle(s: ConfigModalState): (k: I18n.LangKey)
    ensures k == I18n.HasSelectRecord <==> RecordButtonType(s) == Primary
    ensures k == I18n.NoSelectRecord <==> RecordButtonType(s) == Default
  {
    if Truthy(s.recordId) then I18n.HasSelectRecord else I18n.NoSelectRecord
  }

  // ---------------------------------------------------------------------
  // Field options

  /** The field options: the fields that are not mobile-only, in order. */
  function FieldOptions(fields: seq<FieldInfo>): (r: seq<FieldOption>)
    ensures |r| <= |fields|
    ensures forall o :: o in r <==>
      exists i :: 0 <= i < |fields| && !fields[i].onlyMobile && o == FieldOption(fields[i].id, fields[i].name)
  {
    if fields == [] then []
    else
      var head := if fields[0].onlyMobile then [] else [FieldOption(fields[0].id, fields[0].name)];
      var rest := FieldOptions(fields[1..]);
      assert forall i :: 0 < i < |fields| ==> fields[i] == fields[1..][i - 1];
      assert forall j :: 0 <= j < |fields[1..]| ==> fields[1..][j] == fields[j + 1];
      head + rest
  }

  /** Filtering commutes with concatenation, so the options keep the order
      of the fields. */
  lemma {:induction false} FieldOptionsConcat(a: seq<FieldInfo>, b: seq<FieldInfo>)
    ensures FieldOptions(a + b) == FieldOptions(a) + FieldOptions(b)
  {
    if a == [] {
      assert a + b == b;
    } else {
      assert (a + b)[1..] == a[1..] + b;
      FieldOptionsConcat(a[1..], b);
    }
  }

  /** The loop of `updateFieldOptions`: skips mobile-only fields and pushes
      one option for each other field. */
  method CollectFieldOptions(fields: seq<FieldInfo>) returns (list: seq<FieldOption>)
    ensures list == FieldOptions(fields)
  {
    list := [];
    var i := 0;
    while i < |fields|
      invariant 0 <= i <= |fields|
      invariant list == FieldOptions(fields[..i])
    {
      var field := fields[i];
      assert fields[..i + 1] == fields[..i] + [field];
      FieldOptionsConcat(fields[..i], [field]);
      if !field.onlyMobile {
        list := list + [FieldOption(field.id, field.name)];
      }
      i := i + 1;
    }
    assert fields[..i] == fields;
  }

  // ---------------------------------------------------------------------
  // File options

  /** `map((file, index) => ({ value: index, label: file.name }))`: the
      index is taken before any filtering. */
  function Indexed(files: seq<Attachment>): (r: seq<FileOption>)
    ensures |r| == |files|
    ensures forall i :: 0 <= i < |r| ==> r[i] == FileOption(i, files[i].name)
  {
    seq(|files|, i requires 0 <= i < |files| => FileOption(i, files[i].name))
  }

  /** Values strictly increase along the list. */
  predicate Increasing(opts: seq<FileOption>)
  {
    forall a, b :: 0 <= a < b < |opts| ==> opts[a].value < opts[b].value
  }

  /** `filter(item => isJsonFile(item.text))`. */
  function FilterJson(opts: seq<FileOption>): (r: seq<FileOption>)
    ensures |r| <= |opts|
    ensures forall o :: o in r <==> o in opts && IsJsonFile(o.text)
  {
    if opts == [] then []
    else
      assert opts == [opts[0]] + opts[1..];
      (if IsJsonFile(opts[0].text) then [opts[0]] else []) + FilterJson(opts[1..])
  }

  /** Filtering keeps the relative order of what it keeps. */
  lemma {:induction false} FilterJsonIncreasing(opts: seq<FileOption>)
    requires Increasing(opts)
    ensures Increasing(FilterJson(opts))
  {
    if opts != [] {
      var rest := opts[1..];
      FilterJsonIncreasing(rest);
      var r := FilterJson(rest);
      forall o | o in r ensures opts[0].value < o.value {
        var j :| 0 <= j < |rest| && rest[j] == o;
        assert opts[j + 1] == o;
      }
    }
  }

  lemma {:induction false} FilterJsonConcat(a: seq<FileOption>, b: seq<FileOption>)
    ensures FilterJson(a + b) == FilterJson(a) + FilterJson(b)
  {
    if a == [] {
      assert a + b == b;
    } else {
      assert (a + b)[1..] == a[1..] + b;
      FilterJsonConcat(a[1..], b);
    }
  }

  /** The file options of `updateFileList`: the attachments whose names end
      in ".json", in their original order, each valued with its index in the
      unfiltered list. */
  function FileOptions(files: seq<Attachment>): (r: seq<FileOption>)
    ensures forall o :: o in r ==>
      0 <= o.value < |files| && o.text == files[o.value].name && IsJsonFile(o.text)
    ensures forall i :: 0 <= i < |files| && IsJsonFile(files[i].name) ==> FileOption(i, files[i].name) in r
    ensures Increasing(r)
  {
    var all := Indexed(files);
    assert forall i :: 0 <= i < |files| ==> all[i] in all;
    FilterJsonIncreasing(all);
    FilterJson(all)
  }

  /** The labels are exactly the ".json" names, in order. */
  function JsonNames(files: seq<Attachment>): seq<string>
  {
    if files == [] then []
    else (if IsJsonFile(files[0].name) then [files[0].name] else []) + JsonNames(files[1..])
  }

  function Labels(opts: seq<FileOption>): seq<string>
  {
    if opts == [] then [] else [opts[0].text] + Labels(opts[1..])
  }

  lemma {:induction false} LabelsConcat(a: seq<FileOption>, b: seq<FileOption>)
    ensures Labels(a + b) == Labels(a) + Labels(b)
  {
    if a == [] {
      assert a + b == b;
    } else {
      assert (a + b)[1..] == a[1..] + b;
      LabelsConcat(a[1..], b);
    }
  }

  lemma {:induction false} JsonNamesConcat(a: seq<Attachment>, b: seq<Attachment>)
    ensures JsonNames(a + b) == JsonNames(a) + JsonNames(b)
  {
    if a == [] {
      assert a + b == b;
    } else {
      assert (a + b)[1..] == a[1..] + b;
      JsonNamesConcat(a[1..], b);
    }
  }

  /** Appending one attachment adds at most one option at the end: the
      attachment's own, valued with its position, when it is a JSON file. */
  lemma FileOptionsSnoc(files: seq<Attachment>, a: Attachment)
    ensures FileOptions(files + [a]) ==
      FileOptions(files) + (if IsJsonFile(a.name) then [FileOption(|files|, a.name)] else [])
  {
    assert Indexed(files + [a]) == Indexed(files) + [FileOption(|files|, a.name)];
    FilterJsonConcat(Indexed(files), [FileOption(|files|, a.name)]);
  }

  /** The option labels are the ".json" attachment names in their original
      order. */
  lemma {:induction false} FileOptionLabels(files: seq<Attachment>)
    ensures Labels(FileOptions(files)) == JsonNames(files)
  {
    if files != [] {
      var init, last := files[..|files| - 1], files[|files| - 1];
      assert files == init + [last];
      FileOptionLabels(init);
      FileOptionsSnoc(init, last);
      LabelsConcat(FileOptions(init), if IsJsonFile(last.name) then [FileOption(|init|, last.name)] else []);
      JsonNamesConcat(init, [last]);
    }
  }

  /** The values are positions in the unfiltered list: with a non-JSON file
      first (such as "board.png") and a JSON file second (such as
      "board.json"), the only option is valued 1, not 0. */
  lemma FileOptionKeepsOriginalIndex(a: Attachment, b: Attachment)
    requires !IsJsonFile(a.name) && IsJsonFile(b.name)
    ensures FileOptions([a, b]) == [FileOption(1, b.name)]
  {
    var none: seq<Attachment> := [];
    assert FileOptions(none) == [];
    FileOptionsSnoc(none, a);
    assert none + [a] == [a];
    assert FileOptions([a]) == [];
    FileOptionsSnoc([a], b);
    assert [a] + [b] == [a, b];
    assert FileOptions([a, b]) == [] + [FileOption(1, b.name)];
  }

  /** `updateFileList` as a state transition over the base's cells: loading
      ends in every case; the option list is replaced only when a field and a
      record are chosen and their cell holds a value. */
  function FileListLoaded(s: ConfigModalState, cells: map<CellKey, seq<Attachment>>): (r: ConfigModalState)
    ensures !r.loadingFile
    ensures r == s.(loadingFile := false, fileOptionsList := r.fileOptionsList)
    ensures (!Truthy(s.fieldId) || !Truthy(s.recordId) || (s.fieldId.value, s.recordId.value) !in cells) ==>
      r.fileOptionsList == s.fileOptionsList
    ensures Truthy(s.fieldId) && Truthy(s.recordId) && (s.fieldId.value, s.recordId.value) in cells ==>
      r.fileOptionsList == Some(FileOptions(cells[(s.fieldId.value, s.recordId.value)]))
  {
    if !Truthy(s.fieldId) || !Truthy(s.recordId) then
      s.(loadingFile := false)
    else
      match CellValue(cells, (s.fieldId.value, s.recordId.value))
      case None => s.(loadingFile := false)
      case Some(files) => s.(loadingFile := false, fileOptionsList := Some(FileOptions(files)))
  }

  // ---------------------------------------------------------------------
  // Export

  /** The format `onExport` runs: PNG and SVG as chosen, anything else,
      including no choice, as JSON. */
  function Dispatch(t: Option<ExportFileType>): (k: ExportFileType)
    ensures k == t.GetOr(JSON)
  {
    match t
    case Some(PNG) => PNG
    case Some(SVG) => SVG
    case _ => JSON
  }

  /** `getShapeIds`: the selected shapes, or all shapes of the page when
      nothing is selected. */
  function ShapeIds(selected: seq<string>, page: seq<string>): (ids: seq<string>)
    ensures |selected| > 0 ==> ids == selected
    ensures |selected| == 0 ==> ids == page
    ensures ids == [] <==> selected == [] && page == []
  {
    if |selected| > 0 then selected else page
  }

  /** The exported file's extension: a '.' followed by a name without one. */
  function Extension(k: ExportFileType): (e: string)
    ensures |e| > 1 && e[0] == '.' && '.' !in e[1..]
  {
    match k
    case JSON => ".json"
    case SVG => ".svg"
    case PNG => ".png"
  }

  /** The exported file's MIME type: an image type exactly for SVG and PNG. */
  function MimeType(k: ExportFileType): (m: string)
    ensures |m| > 6 && (m[..6] == "image/" <==> k != JSON)
  {
    match k
    case JSON => assert "application/json"[0] != 'i'; "application/json"
    case SVG => "image/svg+xml"
    case PNG => "image/png"
  }

  /** The page name, or "data" when it is empty. */
  function BaseName(pageName: string): (b: string)
    ensures b != ""
  {
    if pageName == "" then "data" else pageName
  }

  /** The exported file's name: the base name plus the format's extension. */
  function ExportFileName(pageName: string, k: ExportFileType): (n: string)
    ensures EndsWith(n, Extension(k)) && |n| > |Extension(k)|
    ensures pageName != "" ==> |n| > |pageName| && n[..|pageName|] == pageName
  {
    BaseName(pageName) + Extension(k)
  }

  /** Each format has its own extension and its own MIME type. */
  lemma ExtensionAndMimeTypeInjective(j: ExportFileType, k: ExportFileType)
    ensures Extension(j) == Extension(k) ==> j == k
    ensures MimeType(j) == MimeType(k) ==> j == k
  {
  }

  /** Only JSON exports carry a JSON file name, so only they are offered
      again by the import dialog. */
  lemma ExportFileNameIsJsonIff(pageName: string, k: ExportFileType)
    ensures IsJsonFile(ExportFileName(pageName, k)) <==> k == JSON
  {
    var b, name := BaseName(pageName), ExportFileName(pageName, k);
    if k == JSON {
      JsonSuffixAccepted(b);
    } else {
      assert name == b + Extension(k);
      assert name[|name| - 4] == '.';
      assert name[|name| - 5..][1] != ".json"[1];
    }
  }

  /** Reading the export's name back with `getFileName` yields the base
      name when the page name has no '.'. */
  lemma ExportFileNameBase(pageName: string, k: ExportFileType)
    requires '.' !in pageName
    ensures FileName(ExportFileName(pageName, k)) == BaseName(pageName)
  {
    FileNameStripsExtension(BaseName(pageName), Extension(k));
  }

  /** A `File` built by an export. */
  datatype File = File(fileType: string, name: string, lastModified: int, size: nat)

  /** What an export produces: nothing (an error toast), or a file. */
  datatype ExportOutcome = NothingToExport | Produced(file: File)

  /** Whether the content of format `k` comes out of the editor: the JSON
      export needs a snapshot; the SVG export an SVG rendering of the shape
      set; the PNG export that rendering and its rasterization. */
  function Rendered(k: ExportFileType, snapshot: Option<string>, shapes: seq<string>,
                    svgOf: seq<string> -> Option<string>, pngOf: string -> Option<string>): bool
  {
    match k
    case JSON => snapshot.Some?
    case SVG => svgOf(shapes).Some?
    case PNG => svgOf(shapes).Some? && pngOf(svgOf(shapes).value).Some?
  }

  /** `onExportJSON`, `onExportSvg`, `onExportImg` for the format `k`: a
      file named after the page with the format's extension and type, or
      nothing when the content did not come out. */
  function ExportFile(k: ExportFileType, rendered: bool, pageName: string, now: int, size: nat)
    : (out: ExportOutcome)
    ensures out.NothingToExport? <==> !rendered
    ensures out.Produced? ==> out.file.name == ExportFileName(pageName, k)
    ensures out.Produced? ==> out.file.fileType == MimeType(k)
    ensures out.Produced? ==> out.file.lastModified == now && out.file.size == size
  {
    if rendered then Produced(File(MimeType(k), ExportFileName(pageName, k), now, size))
    else NothingToExport
  }

  /** A JSON export is offered again by the import dialog; SVG and PNG
      exports are not. */
  lemma ExportedFileIsJsonIff(k: ExportFileType, pageName: string, now: int, size: nat)
    ensures var out := ExportFile(k, true, pageName, now, size);
      IsJsonFile(out.file.name) <==> k == JSON
  {
    ExportFileNameIsJsonIff(pageName, k);
  }

  /** The attachment entry `appendFile` pushes for an uploaded file. */
  function AttachmentOf(f: File, token: string): (a: Attachment)
    ensures a.name == f.name && a.fileType == f.fileType && a.size == f.size
    ensures a.token == token && a.timeStamp == f.lastModified
  {
    Attachment(f.fileType, f.name, token, f.lastModified, f.size)
  }

  /** The new cell value of `appendFile`: the old value (or none) with
      exactly one entry added at the end. */
  function AppendAttachment(existing: Option<seq<Attachment>>, a: Attachment): (r: seq<Attachment>)
    ensures |r| == |existing.GetOr([])| + 1
    ensures r[..|r| - 1] == existing.GetOr([])
    ensures r[|r| - 1] == a
  {
    existing.GetOr([]) + [a]
  }

  /** The base's cells after `appendFile`: unchanged unless a field and a
      record are chosen; then only the chosen cell changes, and it keeps its
      old entries (none when it was empty) and gains `a` at the end. */
  function CellsAfterAppend(cells: map<CellKey, seq<Attachment>>, s: ConfigModalState, a: Attachment)
    : (r: map<CellKey, seq<Attachment>>)
    ensures !Truthy(s.recordId) || !Truthy(s.fieldId) ==> r == cells
    ensures Truthy(s.recordId) && Truthy(s.fieldId) ==>
      var key := (s.fieldId.value, s.recordId.value);
      && r.Keys == cells.Keys + {key}
      && (forall k :: k in cells && k != key ==> r[k] == cells[k])
      && |r[key]| == |CellValue(cells, key).GetOr([])| + 1
      && r[key][..|r[key]| - 1] == CellValue(cells, key).GetOr([])
      && r[key][|r[key]| - 1] == a
  {
    if !Truthy(s.recordId) || !Truthy(s.fieldId) then cells
    else
      var key := (s.fieldId.value, s.recordId.value);
      cells[key := AppendAttachment(CellValue(cells, key), a)]
  }

  /** A JSON export into the chosen cell is offered by the import dialog
      afterwards: the file list gains exactly one option, last, valued with
      the new attachment's index. */
  lemma ExportedJsonIsImportable(cells: map<CellKey, seq<Attachment>>, s: ConfigModalState,
                                 pageName: string, token: string, now: int, size: nat)
    requires Truthy(s.recordId) && Truthy(s.fieldId)
    ensures var key := (s.fieldId.value, s.recordId.value);
      var before := CellValue(cells, key).GetOr([]);
      var name := ExportFileName(pageName, JSON);
      var after := CellsAfterAppend(cells, s, AttachmentOf(ExportFile(JSON, true, pageName, now, size).file, token));
      FileListLoaded(s, after).fileOptionsList == Some(FileOptions(before) + [FileOption(|before|, name)])
  {
    var key := (s.fieldId.value, s.recordId.value);
    var before := CellValue(cells, key).GetOr([]);
    var name := ExportFileName(pageName, JSON);
    var a := AttachmentOf(ExportFile(JSON, true, pageName, now, size).file, token);
    ExportFileNameIsJsonIff(pageName, JSON);
    FileOptionsSnoc(before, a);
  }

  /** An option of the format select; its label is the word of `tip`. */
  datatype FormatOption = FormatOption(value: ExportFileType, tip: I18n.LangKey)

  /** The options of the format select: each format once, in enum order,
      with its description key. */
  function ExportFormatOptions(): (r: seq<FormatOption>)
    ensures |r| == 3
    ensures forall t: ExportFileType :: FormatOption(t, FileTypeTip(t)) in r
    ensures forall i, j :: 0 <= i < j < 3 ==> r[i].value != r[j].value
  {
    var r := seq(3, i requires 0 <= i < 3 =>
      FormatOption(ALL_EXPORT_FILE_TYPES[i], FileTypeTip(ALL_EXPORT_FILE_TYPES[i])));
    assert r[0] == FormatOption(JSON, FileTypeTip(JSON));
    assert r[1] == FormatOption(PNG, FileTypeTip(PNG));
    assert r[2] == FormatOption(SVG, FileTypeTip(SVG));
    r
  }

  // ---------------------------------------------------------------------
  // Import

  /** The URL `onImport` fetches: none when a selection is missing or the
      chosen index has no (non-empty) URL. */
  function ImportUrl(s: ConfigModalState, urls: Option<seq<string>>): (u: Option<string>)
    ensures u.Some? <==>
      Truthy(s.fieldId) && Truthy(s.recordId) && s.fileIndex.Some? &&
      0 <= s.fileIndex.value < |urls.GetOr([])| && urls.GetOr([])[s.fileIndex.value] != ""
    ensures u.Some? ==> u.value == urls.GetOr([])[s.fileIndex.value]
  {
    if !Truthy(s.fieldId) || !Truthy(s.recordId) || s.fileIndex.None? then None
    else
      var list := urls.GetOr([]);
      var i := s.fileIndex.value;
      if 0 <= i < |list| && list[i] != "" then Some(list[i]) else None
  }

  /** The selection cleared by `onCloseModal`. */
  function Cleared(s: ConfigModalState): (r: ConfigModalState)
    ensures !SubmitEnable(Export, r) && !SubmitEnable(Import, r)
  {
    s.(fieldId := None, recordId := None, exportFileType := None, fileIndex := None)
  }

  /** Whether the confirm of mode `t` reaches an `await` of a host call, and
      so can reject: an import needs field, record and file index before its
      first lookup; an SVG or PNG export always awaits `getSvg`; a JSON export
      awaits only inside `appendFile`, so it needs a snapshot, a record and a
      field. */
  predicate ReachesAwait(t: ModalType, s: ConfigModalState, snapshot: Option<string>)
    ensures t == Import ==> (ReachesAwait(t, s, snapshot) <==> SubmitEnable(Import, s))
    ensures t == Export && Dispatch(s.exportFileType) != JSON ==> ReachesAwait(t, s, snapshot)
  {
    match t
    case Import => Truthy(s.fieldId) && Truthy(s.recordId) && s.fileIndex.Some?
    case Export =>
      Dispatch(s.exportFileType) != JSON || (snapshot.Some? && Truthy(s.recordId) && Truthy(s.fieldId))
  }

  /** The effect of an export on the base: an error toast and no change when
      nothing was produced; otherwise the file appended by `appendFile` and
      no toast. */
  ghost predicate ExportEffect(s: ConfigModalState, out: ExportOutcome, token: string,
                               cells0: map<CellKey, seq<Attachment>>, toasts0: seq<Toast>,
                               cells1: map<CellKey, seq<Attachment>>, toasts1: seq<Toast>)
  {
    match out
    case NothingToExport =>
      cells1 == cells0 && toasts1 == toasts0 + [Toast(Error, I18n.NeedFileExport)]
    case Produced(f) =>
      cells1 == CellsAfterAppend(cells0, s, AttachmentOf(f, token)) && toasts1 == toasts0
  }

  /** The dialog component. `visible` and `modalType` are its props,
      `editor` the editor prop, `base` the host base; `closeCalls` counts the
      invocations of the `closeModal` prop. */
  class ConfigModal {
    var visible: bool
    var modalType: ModalType
    const editor: Editor
    const base: Base
    var state: ConfigModalState
    var closeCalls: nat

    constructor (visible: bool, modalType: ModalType, editor: Editor, base: Base)
      ensures this.visible == visible && this.modalType == modalType
      ensures this.editor == editor && this.base == base
      ensures state == INITIAL_STATE && closeCalls == 0
    {
      this.visible := visible;
      this.modalType := modalType;
      this.editor := editor;
      this.base := base;
      state := INITIAL_STATE;
      closeCalls := 0;
    }

    /** `updateFieldOptions`: the field options are those of the table's
        attachment fields, and field loading ends. */
    method UpdateFieldOptions()
      modifies this`state
      ensures state == old(state).(loadingField := false, fieldOptionList := Some(FieldOptions(base.attachmentFields)))
    {
      var list := CollectFieldOptions(base.attachmentFields);
      state := state.(loadingField := false, fieldOptionList := Some(list));
    }

    /** `componentDidMount`. */
    method DidMount()
      modifies this`state
      ensures state == old(state).(loadingField := false, fieldOptionList := Some(FieldOptions(base.attachmentFields)))
    {
      UpdateFieldOptions();
    }

    /** New props, then `componentDidUpdate`: the field options are reloaded
        exactly when visibility changed. */
    method DidUpdate(newVisible: bool, newType: ModalType)
      modifies this`visible, this`modalType, this`state
      ensures visible == newVisible && modalType == newType
      ensures old(visible) != newVisible ==>
        state == old(state).(loadingField := false, fieldOptionList := Some(FieldOptions(base.attachmentFields)))
      ensures old(visible) == newVisible ==> state == old(state)
    {
      var wasVisible := visible;
      visible, modalType := newVisible, newType;
      if wasVisible != newVisible {
        UpdateFieldOptions();
      }
    }

    /** `updateFileList`. */
    method UpdateFileList()
      modifies this`state
      ensures state == FileListLoaded(old(state), base.cells)
    {
      state := state.(loadingFile := true);
      var fieldId, recordId := state.fieldId, state.recordId;
      if !Truthy(fieldId) || !Truthy(recordId) {
        state := state.(loadingFile := false);
        return;
      }
      var files := CellValue(base.cells, (fieldId.value, recordId.value));
      if files.None? {
        state := state.(loadingFile := false);
        return;
      }
      state := state.(loadingFile := false, fileOptionsList := Some(FileOptions(files.value)));
    }

    /** The field select's `onSelect`: sets the field, clears the file
        index, then reloads the file list. */
    method SelectField(v: string)
      modifies this`state
      ensures state == FileListLoaded(old(state).(fieldId := Some(v), fileIndex := None), base.cells)
      ensures state.fieldId == Some(v) && state.fileIndex.None?
      ensures !SubmitEnable(Import, state)
    {
      state := state.(fieldId := Some(v), fileIndex := None);
      UpdateFileList();
    }

    /** `getRecordSelect`, given the ids the record picker returned: warns
        when more than one came back, keeps the first (none for an empty
        list), clears the file index, then reloads the file list. */
    method GetRecordSelect(picked: seq<string>)
      modifies this`state, base`toasts
      ensures base.toasts == old(base.toasts) + (if |picked| > 1 then [Toast(Warning, I18n.OnlyOneRecord)] else [])
      ensures state == FileListLoaded(
        old(state).(recordId := if picked == [] then None else Some(picked[0]), fileIndex := None), base.cells)
      ensures state.recordId == (if picked == [] then None else Some(picked[0]))
      ensures !SubmitEnable(Import, state)
    {
      if |picked| > 1 {
        base.ShowToast(Toast(Warning, I18n.OnlyOneRecord));
      }
      state := state.(recordId := if picked == [] then None else Some(picked[0]), fileIndex := None);
      UpdateFileList();
    }

    /** The format select's `onSelect`. */
    method SelectExportFileType(t: ExportFileType)
      modifies this`state
      ensures state == old(state).(exportFileType := Some(t))
    {
      state := state.(exportFileType := Some(t));
    }

    /** The file select's `onSelect`. */
    method SelectFile(index: int)
      modifies this`state
      ensures state == old(state).(fileIndex := Some(index))
    {
      state := state.(fileIndex := Some(index));
    }

    /** `onCloseModal`: nothing while a confirm is in flight; otherwise the
        selection is cleared and `closeModal` is called once. */
    method OnCloseModal()
      modifies this`state, this`closeCalls
      ensures old(state).okLoading ==> state == old(state) && closeCalls == old(closeCalls)
      ensures !old(state).okLoading ==> state == Cleared(old(state)) && closeCalls == old(closeCalls) + 1
    {
      if state.okLoading {
        return;
      }
      state := Cleared(state);
      closeCalls := closeCalls + 1;
    }

    /** `appendFile`, given the upload token of the file. */
    method AppendFile(file: File, token: string)
      modifies base`cells
      ensures base.cells == CellsAfterAppend(old(base.cells), state, AttachmentOf(file, token))
    {
      if !Truthy(state.recordId) || !Truthy(state.fieldId) {
        return;
      }
      var key := (state.fieldId.value, state.recordId.value);
      var value := CellValue(base.cells, key).GetOr([]);
      value := value + [AttachmentOf(file, token)];
      base.SetValue(key, value);
    }

    /** Shows the "nothing to export" toast, or appends the produced file. */
    method Deliver(out: ExportOutcome, token: string)
      modifies base`cells, base`toasts
      ensures ExportEffect(state, out, token, old(base.cells), old(base.toasts), base.cells, base.toasts)
    {
      match out
      case NothingToExport =>
        base.ShowToast(Toast(Error, I18n.NeedFileExport));
      case Produced(f) =>
        AppendFile(f, token);
    }

    /** `onExportJSON`. */
    method OnExportJson(token: string, now: int, size: nat)
      modifies base`cells, base`toasts
      ensures ExportEffect(state, ExportFile(JSON, editor.snapshot.Some?, editor.pageName, now, size),
                           token, old(base.cells), old(base.toasts), base.cells, base.toasts)
    {
      var data := editor.snapshot;
      Deliver(ExportFile(JSON, data.Some?, editor.pageName, now, size), token);
    }

    /** `onExportSvg`, with `svgOf` standing for `editor.getSvg`. */
    method OnExportSvg(svgOf: seq<string> -> Option<string>, token: string, now: int, size: nat)
      modifies base`cells, base`toasts
      ensures var shapes := ShapeIds(editor.selectedShapeIds, editor.pageShapeIds);
        ExportEffect(state, ExportFile(SVG, svgOf(shapes).Some?, editor.pageName, now, size),
                     token, old(base.cells), old(base.toasts), base.cells, base.toasts)
    {
      var svg := svgOf(ShapeIds(editor.selectedShapeIds, editor.pageShapeIds));
      Deliver(ExportFile(SVG, svg.Some?, editor.pageName, now, size), token);
    }

    /** `onExportImg`, with `pngOf` standing for `getSvgAsImage`. */
    method OnExportImg(svgOf: seq<string> -> Option<string>, pngOf: string -> Option<string>,
                       token: string, now: int, size: nat)
      modifies base`cells, base`toasts
      ensures var shapes := ShapeIds(editor.selectedShapeIds, editor.pageShapeIds);
        ExportEffect(state, ExportFile(PNG, Rendered(PNG, editor.snapshot, shapes, svgOf, pngOf), editor.pageName, now, size),
                     token, old(base.cells), old(base.toasts), base.cells, base.toasts)
    {
      var svg := svgOf(ShapeIds(editor.selectedShapeIds, editor.pageShapeIds));
      if svg.None? {
        Deliver(NothingToExport, token);
        return;
      }
      var image := pngOf(svg.value);
      Deliver(ExportFile(PNG, image.Some?, editor.pageName, now, size), token);
    }

    /** `onExport`: runs the export of the dispatched format. */
    method OnExport(svgOf: seq<string> -> Option<string>, pngOf: string -> Option<string>,
                    token: string, now: int, size: nat)
      modifies base`cells, base`toasts
      ensures var k := Dispatch(state.exportFileType);
        var shapes := ShapeIds(editor.selectedShapeIds, editor.pageShapeIds);
        ExportEffect(state, ExportFile(k, Rendered(k, editor.snapshot, shapes, svgOf, pngOf), editor.pageName, now, size),
                     token, old(base.cells), old(base.toasts), base.cells, base.toasts)
    {
      match state.exportFileType
      case Some(PNG) => OnExportImg(svgOf, pngOf, token, now, size);
      case Some(SVG) => OnExportSvg(svgOf, token, now, size);
      case _ => OnExportJson(token, now, size);
    }

    /** `onImport`, given the cell's attachment URLs and the document the
        chosen URL serves: loads it into the editor, or does nothing when a
        selection or the URL is missing. */
    method OnImport(urls: Option<seq<string>>, fetched: string)
      modifies editor`snapshot
      ensures ImportUrl(state, urls).Some? ==> editor.snapshot == Some(fetched)
      ensures ImportUrl(state, urls).None? ==> editor.snapshot == old(editor.snapshot)
    {
      var fieldId, recordId, fileIndex := state.fieldId, state.recordId, state.fileIndex;
      if !Truthy(fieldId) || !Truthy(recordId) || fileIndex.None? {
        return;
      }
      var attachmentUrls := urls.GetOr([]);
      var i := fileIndex.value;
      if !(0 <= i < |attachmentUrls|) || attachmentUrls[i] == "" {
        return;
      }
      editor.LoadSnapshot(fetched);
    }

    /** `onClickOk`: marks the confirm in flight, runs the mode's operation,
        clears the flag and closes, with the selection cleared. `rejected`
        says that an awaited host call of the operation (SVG rendering,
        upload, cell read or write, URL lookup, fetch, JSON parse, snapshot
        load) rejected, which needs such a call to be reached. A rejection
        leaves the modelled host state (cells, toasts, snapshot) as it was,
        since the cell write and the snapshot load are each the last step of
        their operation; and the lines after the `await` never run, so
        `okLoading` stays set and the dialog stays open. */
    method OnClickOk(svgOf: seq<string> -> Option<string>, pngOf: string -> Option<string>,
                     token: string, now: int, size: nat,
                     urls: Option<seq<string>>, fetched: string, rejected: bool)
      requires rejected ==> ReachesAwait(modalType, state, editor.snapshot)
      modifies this`state, this`closeCalls, base`cells, base`toasts, editor`snapshot
      ensures rejected ==>
        && state == old(state).(okLoading := true) && closeCalls == old(closeCalls)
        && base.cells == old(base.cells) && base.toasts == old(base.toasts)
        && editor.snapshot == old(editor.snapshot)
      ensures !rejected ==> state == Cleared(old(state)).(okLoading := false)
      ensures !rejected ==> closeCalls == old(closeCalls) + 1
      ensures !rejected && modalType == Export ==>
        var k := Dispatch(old(state).exportFileType);
        var shapes := ShapeIds(editor.selectedShapeIds, editor.pageShapeIds);
        && ExportEffect(old(state), ExportFile(k, Rendered(k, old(editor.snapshot), shapes, svgOf, pngOf), editor.pageName, now, size),
                        token, old(base.cells), old(base.toasts), base.cells, base.toasts)
        && editor.snapshot == old(editor.snapshot)
      ensures !rejected && modalType == Import ==>
        && base.cells == old(base.cells) && base.toasts == old(base.toasts)
        && (ImportUrl(old(state), urls).Some? ==> editor.snapshot == Some(fetched))
        && (ImportUrl(old(state), urls).None? ==> editor.snapshot == old(editor.snapshot))
    {
      state := state.(okLoading := true);
      if rejected {
        return;
      }
      if modalType == Export {
        OnExport(svgOf, pngOf, token, now, size);
      } else {
        OnImport(urls, fetched);
      }
      state := state.(okLoading := false);
      OnCloseModal();
    }

    /** After a confirm whose host call rejected, closing the dialog does
        nothing: `okLoading` is never cleared, so every later `onCloseModal`
        returns at once and the dialog cannot be closed. */
    method CloseAfterRejectedOk(svgOf: seq<string> -> Option<string>, pngOf: string -> Option<string>,
                                token: string, now: int, size: nat,
                                urls: Option<seq<string>>, fetched: string)
      requires ReachesAwait(modalType, state, editor.snapshot)
      modifies this`state, this`closeCalls, base`cells, base`toasts, editor`snapshot
      ensures state == old(state).(okLoading := true) && state.okLoading
      ensures closeCalls == old(closeCalls)
      ensures base.cells == old(base.cells) && base.toasts == old(base.toasts)
      ensures editor.snapshot == old(editor.snapshot)
    {
      OnClickOk(svgOf, pngOf, token, now, size, urls, fetched, true);
      OnCloseModal();
      OnCloseModal();
    }
  }
}

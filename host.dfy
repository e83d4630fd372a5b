/** The parts of the two host libraries that the plugin reads and writes:
    the Bitable base (attachment fields, cell values, toasts) and the tldraw
    editor (shape ids, page name, snapshot, user preferences). Their
    behaviour beyond storing and returning these values is not modelled. */
module Host {
  import opened Wrappers
  import I18n

  /** An attachment-type field as `getFieldListByType` lists it, with the
      answers of `getName` and `getOnlyMobile`. */
  datatype FieldInfo = FieldInfo(id: string, name: string, onlyMobile: bool)

  /** One entry of an attachment cell value. */
  datatype Attachment = Attachment(fileType: string, name: string, token: string, timeStamp: int, size: nat)

  datatype ToastType = Warning | Error

  /** A toast; the message is the key whose word the host displays. */
  datatype Toast = Toast(toastType: ToastType, message: I18n.LangKey)

  /** The address of one attachment cell: (field id, record id). */
  type CellKey = (string, string)

  /** The value `getValue` returns for a cell: `None` (null) when the cell
      holds no value. */
  function CellValue(cells: map<CellKey, seq<Attachment>>, key: CellKey): (v: Option<seq<Attachment>>)
    ensures v.Some? <==> key in cells
    ensures v.Some? ==> v.value == cells[key]
  {
    if key in cells then Some(cells[key]) else None
  }

  /** The active table of the base, and the toasts shown so far. */
  class Base {
    var attachmentFields: seq<FieldInfo>
    var cells: map<CellKey, seq<Attachment>>
    var toasts: seq<Toast>

    constructor (fields: seq<FieldInfo>, initial: map<CellKey, seq<Attachment>>)
      ensures attachmentFields == fields && cells == initial && toasts == []
    {
      attachmentFields := fields;
      cells := initial;
      toasts := [];
    }

    /** `setValue`: replaces one cell's value. */
    method SetValue(key: CellKey, v: seq<Attachment>)
      modifies this`cells
      ensures cells == old(cells)[key := v]
    {
      cells := cells[key := v];
    }

    /** `showToast`. */
    method ShowToast(t: Toast)
      modifies this`toasts
      ensures toasts == old(toasts) + [t]
    {
      toasts := toasts + [t];
    }
  }

  /** The whiteboard editor. `snapshot` is what `store.getSnapshot()` yields
      (`None`: nothing), kept as an opaque serialized document. */
  class Editor {
    var selectedShapeIds: seq<string>
    var pageShapeIds: seq<string>
    var pageName: string
    var snapshot: Option<string>
    var isDarkMode: bool
    var locale: string

    constructor (selected: seq<string>, shapes: seq<string>, name: string, doc: Option<string>)
      ensures selectedShapeIds == selected && pageShapeIds == shapes && pageName == name
      ensures snapshot == doc && !isDarkMode && locale == "en"
    {
      selectedShapeIds := selected;
      pageShapeIds := shapes;
      pageName := name;
      snapshot := doc;
      isDarkMode := false;
      locale := "en";
    }

    /** `store.loadSnapshot`: replaces the whole document. */
    method LoadSnapshot(doc: string)
      modifies this`snapshot
      ensures snapshot == Some(doc)
    {
      snapshot := Some(doc);
    }

    /** `user.updateUserPreferences({ isDarkMode, locale })`. */
    method UpdateUserPreferences(dark: bool, loc: string)
      modifies this`isDarkMode, this`locale
      ensures isDarkMode == dark && locale == loc
    {
      isDarkMode := dark;
      locale := loc;
    }
  }
}

/** The string tables and the current-locale holder of src/i18n.ts. */
module I18n {
  import opened Wrappers

  /** The keys of both string tables. */
  datatype LangKey =
    | OnlyOneRecord
    | HasSelectRecord
    | NoSelectRecord
    | PleaseSelectField
    | PleaseSelectRecord
    | OnlyAcceptAttachment
    | SelectExportFileType
    | SelectImportFile
    | Import
    | Export
    | NeedFileExport
    | ImportFromBitable
    | ExportToBitable
    | Close
    | ExportJson
    | ExportSvg
    | ExportPng
  {
    /** The string value of the enum member. `ExportSvg` is 'export__svg'. */
    function Value(): string
    {
      match this
      case OnlyOneRecord => "only_one_record"
      case HasSelectRecord => "has_select_record"
      case NoSelectRecord => "no_select_record"
      case PleaseSelectField => "please_select_field"
      case PleaseSelectRecord => "please_select_record"
      case OnlyAcceptAttachment => "only_accept_attachment"
      case SelectExportFileType => "select_export_file_type"
      case SelectImportFile => "select_import_file"
      case Import => "import"
      case Export => "export"
      case NeedFileExport => "need_file_export"
      case ImportFromBitable => "import_from_bitable"
      case ExportToBitable => "export_to_bitable"
      case Close => "close"
      case ExportJson => "export_json"
      case ExportSvg => "export__svg"
      case ExportPng => "export_png"
    }
  }

  /** Reads an enum value back into its member. */
  function ParseLangKey(s: string): Option<LangKey>
  {
    if s == "only_one_record" then Some(OnlyOneRecord)
    else if s == "has_select_record" then Some(HasSelectRecord)
    else if s == "no_select_record" then Some(NoSelectRecord)
    else if s == "please_select_field" then Some(PleaseSelectField)
    else if s == "please_select_record" then Some(PleaseSelectRecord)
    else if s == "only_accept_attachment" then Some(OnlyAcceptAttachment)
    else if s == "select_export_file_type" then Some(SelectExportFileType)
    else if s == "select_import_file" then Some(SelectImportFile)
    else if s == "import" then Some(Import)
    else if s == "export" then Some(Export)
    else if s == "need_file_export" then Some(NeedFileExport)
    else if s == "import_from_bitable" then Some(ImportFromBitable)
    else if s == "export_to_bitable" then Some(ExportToBitable)
    else if s == "close" then Some(Close)
    else if s == "export_json" then Some(ExportJson)
    else if s == "export__svg" then Some(ExportSvg)
    else if s == "export_png" then Some(ExportPng)
    else None
  }

  /** The round trip for the keys of the dialog's prompts and captions. */
  lemma ParsePromptKeys(k: LangKey)
    requires k.OnlyOneRecord? || k.HasSelectRecord? || k.NoSelectRecord? || k.PleaseSelectField? || k.PleaseSelectRecord? || k.OnlyAcceptAttachment? || k.SelectExportFileType? || k.SelectImportFile?
    ensures ParseLangKey(k.Value()) == Some(k)
  {
  }

  /** The round trip for the keys of the mode words and the export error. */
  lemma ParseModeKeys(k: LangKey)
    requires k.Import? || k.Export? || k.NeedFileExport?
    ensures ParseLangKey(k.Value()) == Some(k)
  {
  }

  /** The round trip for the keys of the tool titles and the close word. */
  lemma ParseToolKeys(k: LangKey)
    requires k.ImportFromBitable? || k.ExportToBitable? || k.Close?
    ensures ParseLangKey(k.Value()) == Some(k)
  {
  }

  /** The round trip for the keys of the format descriptions. */
  lemma ParseFormatKeys(k: LangKey)
    requires k.ExportJson? || k.ExportSvg? || k.ExportPng?
    ensures ParseLangKey(k.Value()) == Some(k)
  {
  }

  /** Every member's value reads back as that member. */
  lemma ParseLangKeyRoundTrip(k: LangKey)
    ensures ParseLangKey(k.Value()) == Some(k)
  {
    if k.OnlyOneRecord? || k.HasSelectRecord? || k.NoSelectRecord? || k.PleaseSelectField? || k.PleaseSelectRecord? || k.OnlyAcceptAttachment? || k.SelectExportFileType? || k.SelectImportFile? {
      ParsePromptKeys(k);
    } else if k.Import? || k.Export? || k.NeedFileExport? {
      ParseModeKeys(k);
    } else if k.ImportFromBitable? || k.ExportToBitable? || k.Close? {
      ParseToolKeys(k);
    } else {
      ParseFormatKeys(k);
    }
  }

  /** The enum values are pairwise distinct. */
  lemma LangKeyValuesDistinct(a: LangKey, b: LangKey)
    requires a != b
    ensures a.Value() != b.Value()
  {
    ParseLangKeyRoundTrip(a);
    ParseLangKeyRoundTrip(b);
  }

  /** The Chinese table. */
  function ZhWord(k: LangKey): string
  {
    match k
    case OnlyOneRecord => "只允许选择一条记录, 默认填充选择的第一条记录"
    case HasSelectRecord => "已选择记录"
    case NoSelectRecord => "未选择记录"
    case PleaseSelectField => "请选择字段"
    case PleaseSelectRecord => "请选择记录"
    case OnlyAcceptAttachment => "仅支持选择附件类型字段, 选择文件的时候不对文件内容做校验"
    case SelectExportFileType => "请选择导出的文件类型"
    case SelectImportFile => "请选择导入的文件(请先选择上述的字段和记录)"
    case Import => "导入"
    case Export => "导出"
    case NeedFileExport => "缺少需要导出的文件"
    case ImportFromBitable => "从多维表格中导入"
    case ExportToBitable => "导出到多维表格"
    case Close => "关闭"
    case ExportJson => "将整个工作区导出为 JSON 格式(可以二次编辑)"
    case ExportSvg => "导出为 SVG 格式，导出之后拉伸不变形"
    case ExportPng => "导出为图片格式"
  }

  /** The English table. */
  function EnWord(k: LangKey): string
  {
    match k
    case OnlyOneRecord => "Only one record is allowed, the first selected record is filled in by default"
    case HasSelectRecord => "Record has been selected"
    case NoSelectRecord => "No record selected"
    case PleaseSelectField => "Please select a field"
    case PleaseSelectRecord => "Please select a record"
    case OnlyAcceptAttachment => "Only attachment type fields are supported, no validation is done on the file content when selecting a file"
    case SelectExportFileType => "Please select the file type for export"
    case SelectImportFile => "Please select the file to import (please select the above fields and records first)"
    case Import => "Import"
    case Export => "Export"
    case NeedFileExport => "Missing file for export"
    case ImportFromBitable => "Import from Bitable"
    case ExportToBitable => "Export to Bitable"
    case Close => "close"
    case ExportJson => "Export the entire workspace as JSON format (can be edited again)"
    case ExportSvg => "Export as SVG format, no deformation after stretching"
    case ExportPng => "Export as image format"
  }

  /** The one locale that selects the Chinese table. */
  const ZH_CN := "zh-CN"

  /** `getWord` under the locale `lang` (`None`: `setLang` never called).
      Both tables have an entry for every key, so the word is never
      `undefined`. */
  function Word(lang: Option<string>, k: LangKey): (w: string)
    ensures w == ZhWord(k) || w == EnWord(k)
  {
    if lang == Some(ZH_CN) then ZhWord(k) else EnWord(k)
  }

  /** No key has the same text in both tables, so which table answered is
      visible in the word. */
  lemma TablesDiffer(k: LangKey)
    ensures ZhWord(k) != EnWord(k)
  {
    match k
    case OnlyOneRecord => {}
    case HasSelectRecord => {}
    case NoSelectRecord => {}
    case PleaseSelectField => {}
    case PleaseSelectRecord => {}
    case OnlyAcceptAttachment => {}
    case SelectExportFileType => {}
    case SelectImportFile => {}
    case Import => {}
    case Export => {}
    case NeedFileExport => {}
    case ImportFromBitable => {}
    case ExportToBitable => {}
    case Close => {}
    case ExportJson => {}
    case ExportSvg => {}
    case ExportPng => {}
  }

  /** `getWord` answers from the Chinese table iff the locale is exactly
      'zh-CN', and from the English table iff it is anything else,
      including never set. */
  lemma WordChoosesTable(lang: Option<string>, k: LangKey)
    ensures Word(lang, k) == ZhWord(k) <==> lang == Some(ZH_CN)
    ensures Word(lang, k) == EnWord(k) <==> lang != Some(ZH_CN)
  {
    TablesDiffer(k);
  }

  /** Under any locale the two mode words differ, and so do the two record
      captions: a label chosen by key is told apart on screen. */
  lemma KeyedLabelsDiffer(lang: Option<string>)
    ensures Word(lang, Import) != Word(lang, Export)
    ensures Word(lang, HasSelectRecord) != Word(lang, NoSelectRecord)
  {
  }

  /** The module-level `lang` variable and its setter. */
  class Locale {
    var lang: Option<string>

    /** Module load: `lang` is declared without a value. */
    constructor ()
      ensures lang == None
    {
      lang := None;
    }

    /** `setLang`: overwrites the current locale. */
    method SetLang(v: string)
      modifies this
      ensures lang == Some(v)
    {
      lang := Some(v);
    }

    /** `getWord` against the current value of `lang`. */
    function GetWord(k: LangKey): (w: string)
      reads this
      ensures w == ZhWord(k) <==> lang == Some(ZH_CN)
      ensures lang != Some(ZH_CN) ==> w == EnWord(k)
    {
      TablesDiffer(k);
      Word(lang, k)
    }
  }

  /** Later lookups follow the most recent `setLang`, whatever came before. */
  method SetLangLastWins(first: string, second: string, k: LangKey) returns (w: string)
    ensures w == Word(Some(second), k)
  {
    var l := new Locale();
    l.SetLang(first);
    l.SetLang(second);
    w := l.GetWord(k);
  }
}

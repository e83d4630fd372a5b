/** The export formats and their description keys, src/const.ts. */
module Const {
  import opened Wrappers
  import opened I18n

  /** `ExportFileType`: exactly three members. */
  datatype ExportFileType = JSON | PNG | SVG
  {
    /** The enum member's string value. */
    function Value(): string
    {
      match this
      case JSON => "JSON"
      case PNG => "png"
      case SVG => "svg"
    }
  }

  /** `Object.values(ExportFileType)`, in declaration order. */
  const ALL_EXPORT_FILE_TYPES: seq<ExportFileType> := [JSON, PNG, SVG]

  /** Reads a string value back into its member. */
  function ParseExportFileType(s: string): Option<ExportFileType>
  {
    if s == "JSON" then Some(JSON)
    else if s == "png" then Some(PNG)
    else if s == "svg" then Some(SVG)
    else None
  }

  /** The enumeration lists every member exactly once, and the values read
      back as their members (so they are pairwise distinct). */
  lemma ExportFileTypesEnumerated(t: ExportFileType)
    ensures |ALL_EXPORT_FILE_TYPES| == 3
    ensures t in ALL_EXPORT_FILE_TYPES
    ensures forall i, j :: 0 <= i < j < 3 ==> ALL_EXPORT_FILE_TYPES[i] != ALL_EXPORT_FILE_TYPES[j]
    ensures ParseExportFileType(t.Value()) == Some(t)
  {
  }

  /** Distinct formats have distinct string values. */
  lemma ExportFileTypeValuesDistinct(a: ExportFileType, b: ExportFileType)
    requires a != b
    ensures a.Value() != b.Value()
  {
    ExportFileTypesEnumerated(a);
    ExportFileTypesEnumerated(b);
  }

  /** `FileTypeTip`: the description key shown for each format; defined
      for every member, and always one of the three export keys. */
  function FileTypeTip(t: ExportFileType): (k: LangKey)
    ensures k == ExportJson || k == ExportSvg || k == ExportPng
  {
    match t
    case JSON => ExportJson
    case SVG => ExportSvg
    case PNG => ExportPng
  }

  /** No two formats share a description key. */
  lemma FileTypeTipInjective(a: ExportFileType, b: ExportFileType)
    requires a != b
    ensures FileTypeTip(a) != FileTypeTip(b)
  {
  }
}

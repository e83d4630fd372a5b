# Bitable whiteboard plugin: the import/export dialog, in Dafny

This project models the sequential core of a Bitable plugin that embeds a
tldraw whiteboard and moves its content to and from an attachment field.
The plugin offers two toolbar tools. Export writes the board into an
attachment cell as JSON, SVG or PNG. Import loads a JSON snapshot from a
cell back into the board. Each tool opens one dialog. In it the user picks a
field, then a record, then a format (export) or a file (import), and confirms.

Modules, one per source file:

- `Utils` (src/utils.ts): `getFileName` over a model of `split('.')`, and `isJsonFile`.
- `I18n` (src/i18n.ts): the `LangKey` enum, the Chinese and English tables, the
  mutable `lang` (class `Locale`) and `getWord` (`Word`).
- `Const` (src/const.ts): `ExportFileType` and `FileTypeTip`.
- `Config` (src/config.tsx): the dialog's state (`ConfigModalState`), the option
  lists it derives, the submit predicate and labels, the export and import
  steps, and the component itself (class `ConfigModal`), whose handlers are
  sequential transitions.
- `App` (src/app.tsx): the page state (class `Page`), the tools and toolbar
  overrides, the `onMount` locale mapping and the rule that renders the dialog.
- `Host`: the parts of the Bitable SDK and of the tldraw editor that the plugin
  reads and writes. These are the attachment fields, cell values and toasts of
  the base, and the shape ids, page name, snapshot and user preferences of the
  editor. `Host` stores and returns these values and does nothing more.
- `Wrappers`: `Option`, which stands for `undefined` / `null`.

React's `setState({...})` merges into an immutable state object. It is
modelled as a datatype update, `state := state.(field := v, ...)`. JavaScript
truthiness is explicit: an id counts as chosen when it is defined and
non-empty (`Truthy`). A file index counts when it is a number, 0 included.

The model keeps two quirks of the source:

- Import file options carry each attachment's index in the unfiltered cell
  value, not its position among the `.json` files (`FileOptionKeepsOriginalIndex`).
- The OK button's label is swapped. The export dialog shows the word for
  "import" and the import dialog the word for "export" (`SubmitText`).

## Model

| member | source | states |
|---|---|---|
| `Utils.Split` | src/utils.ts:2 | `split('.')` yields at least one part. No part contains the separator, and joining the parts with it gives back the input. |
| `Utils.FileName` | src/utils.ts:1-3 | `getFileName` is always defined. It is a prefix of the name, has no '.', and is followed in the name by '.' or by the end. |
| `Utils.FileNameIsLongest` | src/utils.ts:1-3 | Every '.'-free prefix of the name is a prefix of `getFileName`'s result, so the result is the part before the first '.'. |
| `Utils.FileNameOfPlainName` | src/utils.ts:1-3 | A name without '.' is returned whole. |
| `Utils.FileNameStripsExtension` | src/utils.ts:1-3 | For a '.'-free base and an extension starting with '.', the result is the base. |
| `Utils.IsJsonFile` | src/utils.ts:5-7 | `isJsonFile`: a name that passes has at least five characters and a '.' five from its end, so it has an extension. |
| `Utils.IsJsonFileIff` | src/utils.ts:5-7 | `isJsonFile(name)` holds iff `name` is some string followed by ".json". |
| `Utils.JsonSuffixAccepted` | src/utils.ts:5-7 | `isJsonFile(s + ".json")` holds for every `s`. |
| `Utils.IsJsonFileExamples` | src/utils.ts:5-7 | The test is case-sensitive and exact. ".json" and "board.json" pass. "a.JSON", "json", "board.svg" and "board.png" fail. |
| `I18n.ParseLangKeyRoundTrip` | src/i18n.ts:9-27 | Every `LangKey` value reads back as its own member (`export_svg` is 'export__svg'). |
| `I18n.LangKeyValuesDistinct` | src/i18n.ts:9-27 | Distinct `LangKey` members have distinct string values. |
| `I18n.ZhWord` | src/i18n.ts:29-47 | The Chinese table, entry by entry, with an entry for every key. It has no contract of its own. What is stated about it is in `I18n.TablesDiffer`, `I18n.Word` and `I18n.KeyedLabelsDiffer`. |
| `I18n.EnWord` | src/i18n.ts:49-67 | The English table, entry by entry, with an entry for every key. It has no contract of its own. What is stated about it is in `I18n.TablesDiffer`, `I18n.Word` and `I18n.KeyedLabelsDiffer`. |
| `I18n.Word` | src/i18n.ts:69-75 | `getWord` yields an entry of the Chinese or the English table, never `undefined`. |
| `I18n.TablesDiffer` | src/i18n.ts:29-67 | For every key, the Chinese and English entries differ. |
| `I18n.WordChoosesTable` | src/i18n.ts:69-75 | `getWord` answers from the Chinese table iff `lang` is exactly 'zh-CN'. It answers from the English table otherwise, including when `lang` was never set. |
| `I18n.KeyedLabelsDiffer` | src/i18n.ts:29-67 | Under every locale, the words for "import" and "export" differ, and so do the two record captions. |
| `I18n.Locale.constructor` | src/i18n.ts:3 | `lang` starts undefined. |
| `I18n.Locale.SetLang` | src/i18n.ts:5-7 | `setLang(v)` overwrites `lang` with `v`. |
| `I18n.Locale.GetWord` | src/i18n.ts:69-75 | The word comes from the Chinese table iff the current `lang` is 'zh-CN'. For any other or unset `lang` it is the English entry. |
| `I18n.SetLangLastWins` | src/i18n.ts:3-7 | After two `setLang` calls, `getWord` follows the second. |
| `Const.ExportFileTypesEnumerated` | src/const.ts:3-7 | `ExportFileType` has exactly three members, listed once each, and their values 'JSON', 'png' and 'svg' read back as those members. |
| `Const.ExportFileTypeValuesDistinct` | src/const.ts:3-7 | The three values are pairwise distinct. |
| `Const.FileTypeTip` | src/const.ts:9-13 | `FileTypeTip` is defined for every format and is one of the three export description keys. |
| `Const.FileTypeTipInjective` | src/const.ts:10-12 | No two formats share a description key. |
| `Config.SubmitEnable` | src/config.tsx:200-207 | OK is enabled iff every selection the mode needs is made. Export needs field, record and format. Import needs field, record and a numeric file index, 0 included. |
| `Config.SubmitText` | src/config.tsx:192-198 | The OK label's key is never the key for the dialog's own mode. It is always the key for the other mode. `I18n.KeyedLabelsDiffer` shows the two words differ on screen. |
| `Config.RecordButtonType` | src/config.tsx:124-126 | The record button is primary iff a record is chosen. |
| `Config.RecordButtonTitle` | src/config.tsx:128-130 | The caption key is "record selected" exactly when the button is primary. Otherwise it is "no record selected". The two words differ, by `I18n.KeyedLabelsDiffer`. |
| `Config.FieldOptions` | src/config.tsx:67-76 | An option exists iff some field that is not mobile-only has that id and name. There are no more options than fields. |
| `Config.FieldOptionsConcat` | src/config.tsx:67-76 | The field filter distributes over concatenation, so it keeps the fields' order. |
| `Config.CollectFieldOptions` | src/config.tsx:67-76 | The push loop of `updateFieldOptions` builds exactly `FieldOptions`. |
| `Config.Indexed` | src/config.tsx:117-119 | The map gives every attachment its index in the unfiltered list and its name. |
| `Config.FilterJson` | src/config.tsx:120 | The filter keeps exactly the options whose label is a JSON file name. |
| `Config.FilterJsonIncreasing` | src/config.tsx:117-120 | The filter keeps the relative order of the options it keeps. |
| `Config.FilterJsonConcat` | src/config.tsx:120 | The filter distributes over concatenation. |
| `Config.FileOptions` | src/config.tsx:117-120 | Each option's value is an original index whose attachment has the option's label, which ends in ".json". Every ".json" attachment appears. Values strictly increase. |
| `Config.FileOptionLabels` | src/config.tsx:117-120 | The labels are exactly the ".json" attachment names, in their original order. |
| `Config.FileOptionsSnoc` | src/config.tsx:117-120 | Appending an attachment adds its option at the end, valued with its position, iff its name is a JSON name. |
| `Config.FileOptionKeepsOriginalIndex` | src/config.tsx:117-120 | With a non-JSON attachment first (such as "board.png") and a JSON one second (such as "board.json"), the only option is valued 1, the unfiltered position. |
| `Config.FileListLoaded` | src/config.tsx:95-122 | `updateFileList` always ends with `loadingFile` false and changes only the option list. The list is unchanged when the field or record is missing or the cell has no value. Otherwise it becomes `FileOptions` of the cell. |
| `Config.Dispatch` | src/config.tsx:241-251 | The export run is the chosen format, or JSON when none is chosen. |
| `Config.ShapeIds` | src/config.tsx:253-257 | The result is the selected ids when any are selected, else all page shape ids. It is empty only when both are empty. |
| `Config.Extension` | src/config.tsx:268 | The extension is a '.' followed by a '.'-free name: ".json", ".svg" or ".png" (the same line shape at config.tsx:305 and 326). |
| `Config.MimeType` | src/config.tsx:269 | The file's MIME type is an `image/` type exactly for SVG and PNG (config.tsx:305 and 326), and `application/json` for JSON. |
| `Config.ExtensionAndMimeTypeInjective` | src/config.tsx:266-269 | No two formats share an extension or a MIME type. |
| `Config.BaseName` | src/config.tsx:268 | The exported file's base is the page name, or "data" when that is empty. It is never empty. |
| `Config.ExportFileName` | src/config.tsx:268 | The exported name ends in the format's extension with a non-empty base in front. It starts with the page name when that is non-empty. |
| `Config.ExportFileNameIsJsonIff` | src/config.tsx:268 | The exported name passes `isJsonFile` iff the format is JSON. ".svg" and ".png" names do not. |
| `Config.ExportFileNameBase` | src/config.tsx:268 | `getFileName` of an exported name gives back the base when the page name has no '.'. |
| `Config.ExportFile` | src/config.tsx:259-328 | An export produces nothing iff its content did not come out. Otherwise it produces a file named base + extension, with the format's MIME type, the current time and the blob's size. |
| `Config.ExportedFileIsJsonIff` | src/config.tsx:259-328 | A produced export file has a JSON name iff the format is JSON. |
| `Config.AttachmentOf` | src/config.tsx:285-291 | The pushed entry carries the file's type, name, modification time and size, and the upload token. |
| `Config.AppendAttachment` | src/config.tsx:284-291 | The new value keeps the old entries (an empty list when the cell had none) and adds exactly one entry at the end. |
| `Config.CellsAfterAppend` | src/config.tsx:275-293 | Without a record and a field, the cells are unchanged. With both, the chosen cell is added to the keys if missing and every other cell keeps its value. The chosen cell is one entry longer than its old value (an empty list when there was none) and keeps it as a prefix. Its last entry is the new attachment. |
| `Config.ExportedJsonIsImportable` | src/config.tsx:275-293 | After a JSON export into the chosen cell, the reloaded import list is the old options plus one last option for the new file, valued with its index. |
| `Config.ExportFormatOptions` | src/config.tsx:165 | The format select offers each of the three formats exactly once, each with its description key. |
| `Config.ImportUrl` | src/config.tsx:221-232 | The URL to import exists iff field, record and a numeric index are chosen and that index has a non-empty URL. It is the URL at that index. |
| `Config.Cleared` | src/config.tsx:335-340 | After the close-time reset, submit is disabled in both modes. |
| `Config.ConfigModal.constructor` | src/config.tsx:45-52 | The dialog starts with fields loading, no file loading, no confirm in flight and no selection. |
| `Config.ConfigModal.UpdateFieldOptions` | src/config.tsx:64-81 | Field loading ends and the field options become `FieldOptions` of the table's attachment fields. |
| `Config.ConfigModal.DidMount` | src/config.tsx:54-56 | Mounting loads the field options. |
| `Config.ConfigModal.DidUpdate` | src/config.tsx:58-62 | The field options reload exactly when the `visible` prop changes. |
| `Config.ConfigModal.UpdateFileList` | src/config.tsx:95-122 | The new state is `FileListLoaded` of the old state and the base's cells. |
| `Config.ConfigModal.SelectField` | src/config.tsx:138-140 | Sets the field and clears the file index, then reloads the file list. Afterwards import submit is disabled. |
| `Config.ConfigModal.GetRecordSelect` | src/config.tsx:83-93 | Shows one warning toast iff more than one record was picked. Keeps the first id, or none for an empty pick. Clears the file index and reloads the file list. Afterwards import submit is disabled. |
| `Config.ConfigModal.SelectExportFileType` | src/config.tsx:164 | Sets the export format and nothing else. |
| `Config.ConfigModal.SelectFile` | src/config.tsx:177-179 | Sets the file index and nothing else. |
| `Config.ConfigModal.OnCloseModal` | src/config.tsx:330-342 | With a confirm in flight, nothing changes and `closeModal` is not called. Otherwise field, record, format and file index are cleared and `closeModal` is called once. |
| `Config.ConfigModal.AppendFile` | src/config.tsx:275-293 | The base's cells become `CellsAfterAppend` of the old cells for the uploaded file's entry. |
| `Config.ConfigModal.Deliver` | src/config.tsx:262-272 | When nothing was produced, shows the "missing file for export" error toast and changes no cell. Otherwise appends the file and shows no toast. |
| `Config.ConfigModal.OnExportJson` | src/config.tsx:259-273 | The JSON export's effect on the base, which needs a snapshot. |
| `Config.ConfigModal.OnExportSvg` | src/config.tsx:295-307 | The SVG export's effect on the base, which needs an SVG of `ShapeIds`. |
| `Config.ConfigModal.OnExportImg` | src/config.tsx:309-328 | The PNG export's effect on the base, which needs the SVG and its rasterization. |
| `Config.ConfigModal.OnExport` | src/config.tsx:241-251 | Runs the export of `Dispatch(exportFileType)`. |
| `Config.ConfigModal.OnImport` | src/config.tsx:221-239 | Loads the fetched document into the editor iff `ImportUrl` finds a URL. Otherwise the editor is unchanged. |
| `Config.ConfigModal.OnClickOk` | src/config.tsx:209-219 | Runs the mode's operation and touches nothing else. When no awaited host call rejects, `okLoading` ends false, the selection is cleared and `closeModal` is called once. When one rejects, the host is unchanged, `okLoading` stays true and `closeModal` is not called. A rejection is possible only when the confirm reaches an awaited host call (`Config.ReachesAwait`). |
| `Config.ReachesAwait` | src/config.tsx:221-328 | An import can reject exactly when its submit is enabled, since field, record and index are checked before the first lookup (config.tsx:223-225). An SVG or PNG export always awaits `getSvg`. A JSON export awaits only in `appendFile`, so only with a snapshot, a record and a field. |
| `Config.ConfigModal.CloseAfterRejectedOk` | src/config.tsx:209-219 | After a confirm whose host call rejected, repeated closes change nothing. `okLoading` stays true, `closeModal` is never called (config.tsx:331-333), and the cells, toasts and snapshot are unchanged. |
| `App.RenderedDialog` | src/app.tsx:92-98 | The dialog is rendered iff an editor is stored, with the stored mode, visibility and editor. |
| `App.ToolsOverride` | src/app.tsx:49-70 | Keeps every other tool and sets 'export' and 'import' to ids 'bitable-export' and 'bitable-import'. Neither is readonly-ok, and selecting one opens the dialog in its mode. |
| `App.ToolbarFindsBitableTools` | src/app.tsx:49-76 | The overridden tools always hold the two entries the toolbar override reads. |
| `App.ToolbarOverride` | src/app.tsx:72-76 | The toolbar is the export item, then the import item, then the original items in their order. |
| `App.MountLocale` | src/app.tsx:83-86 | The editor locale is 'zh-cn' iff the page locale is 'zh-CN'. Otherwise it is 'en'. |
| `App.MountLocaleAgreesWithWords` | src/app.tsx:83-86 | The editor is set to Chinese exactly when `getWord` answers from the Chinese table for the same locale. |
| `App.Page.constructor` | src/app.tsx:22-29 | The page starts not loading, the dialog hidden, export mode, no editor, and no dialog rendered. |
| `App.Page.OnClickExport` | src/app.tsx:31-37 | Stores the editor, shows the dialog and selects export mode. |
| `App.Page.OnClickImport` | src/app.tsx:39-45 | Stores the editor, shows the dialog and selects import mode. |
| `App.Page.SelectTool` | src/app.tsx:57-67 | Selecting a Bitable tool runs `onClickExport` or `onClickImport` with the captured editor. Other tools leave the page alone. |
| `App.Page.CloseModal` | src/app.tsx:79-81 | Hides the dialog and keeps the editor and mode. |
| `App.Page.CancelDialog` | src/app.tsx:92-97 | With a confirm in flight, a cancel changes nothing, including the close counter and the dialog's props. Otherwise it clears the selection, calls `closeModal` once and hides the dialog. The dialog then gets `visible = false`, and its field options reload when it was visible (config.tsx:58-62). |
| `App.Page.OnMount` | src/app.tsx:83-86 | The editor gets the page's dark-mode flag and the mapped locale. |

## Left out

- Host I/O is not modelled; its results are parameters, and its failure is the `rejected` flag of `OnClickOk`. This covers the Bitable SDK calls (active table, field lookup, upload tokens, record picker, attachment URLs, selection) and the browser's `fetch` and `Date.now`. The cells, field list and toasts are plain state in `Host.Base`. A rejection in the other handlers is not modelled. One in `updateFileList` would leave `loadingFile` true, one in `updateFieldOptions` would leave `loadingField` and `fieldOptionList` as they were (`loadingField` is true only until the first load completes), and one in `getRecordSelect` would leave the state unchanged. So `Config.FileListLoaded` and `Config.ConfigModal.UpdateFieldOptions` describe the runs where those calls resolve.
- The tldraw engine is not modelled. `getSvg` and `getSvgAsImage` are function parameters that may yield nothing. Snapshots are opaque strings. Rendering, rasterization and snapshot validation belong to the engine.
- The bytes of exported files are not modelled: `JSON.stringify` indentation, `XMLSerializer`, and `Blob` and `File` sizes. A file's size is a parameter. For that reason the export-then-import round trip of a document is not stated. What is stated is that a JSON export shows up as the last import option (`Config.ExportedJsonIsImportable`).
- Toast messages are recorded as their `LangKey`. The word shown is `I18n.Word` of that key under the current locale.
- The interleaving of `await` and asynchronous `setState` is not modelled. Each handler is one atomic transition, so `okLoading` is true only inside `OnClickOk`, or after a confirm whose host call rejected (see the `Config.ConfigModal.OnClickOk` line below). The close guard is stated on `OnCloseModal` itself.
- Prop propagation from `Page` to `ConfigModal` is modelled only in `App.Page.CancelDialog`. After a successful confirm, the page's `closeModal` hides the dialog in the same way (`App.Page.CloseModal`, then `Config.ConfigModal.DidUpdate`). That composition is not stated as one method.
- Only integer file indices are modelled. JavaScript numbers such as NaN or fractions, which `typeof === 'number'` also accepts, are not.
- Rendering is not modelled: antd components, CSS, the `Spin` indicator, the tooltip and the form layout. The page's `loading` flag is modelled but never changes, as in the source.
- App.ToolbarOverride: built on a sequence, not by splicing the host's array in place. Dafny arrays have a fixed length, and the override returns the same list it grew.
- src/index.tsx (bootstrap of locale and theme from the host, React root) is not part of this model. src/bitable-tool/bitable-tool.ts (tool classes and icon URLs) is not part of this model either. Their only effect used here is the locale passed to `setLang` and the page.
- I18n.Word: non-emptiness of the table entries is not stated, because checking it on the long English literals exceeds the solver's resource budget. Both tables are total functions over `LangKey`, which rules out `undefined`. `I18n.TablesDiffer` shows every entry of one table differs from the other's.
- Config.ConfigModal.OnClickOk: a rejected host call is one flag. Which call rejected, and the error it reports, are not modelled. The flag may be set only when the confirm reaches an `await` (`Config.ReachesAwait`). A rejection leaves the modelled host state (cells, toasts, snapshot) unchanged, since the cell write (`setValue`) and the snapshot load are each the last step of their operation. A file already uploaded by `batchUploadFile` (config.tsx:281) before a later call rejects is not modelled, because uploads are not host state here. It also leaves `okLoading` set, and from then on `onCloseModal` returns at once, so the dialog cannot be closed. The unhandled promise rejection itself is not modelled.

/** The root page of src/app.tsx: which editor is active, whether the dialog
    is shown and in which mode, and the tool and toolbar overrides that open
    it. */
module App {
  import opened Wrappers
  import I18n
  import opened Host
  import opened Config

  /** `PageState`; `editor` is `None` until a tool has been used. */
  datatype PageState = PageState(loading: bool, editor: Option<Editor>, showConfig: bool, modalType: ModalType)

  const INITIAL_PAGE_STATE := PageState(false, None, false, Export)

  /** The props the page renders the dialog with. */
  datatype DialogProps = DialogProps(modalType: ModalType, visible: bool, editor: Editor)

  /** The dialog part of `render`: the dialog exists only once an editor has
      been stored, and then shows the stored mode and visibility. */
  function RenderedDialog(s: PageState): (p: Option<DialogProps>)
    ensures p.Some? <==> s.editor.Some?
    ensures p.Some? ==> p.value == DialogProps(s.modalType, s.showConfig, s.editor.value)
  {
    match s.editor
    case None => None
    case Some(e) => Some(DialogProps(s.modalType, s.showConfig, e))
  }

  /** What selecting a tool does: the host's own behaviour, or opening the
      dialog in a mode for the editor the override was built with. */
  datatype ToolAction = HostAction | OpenDialog(mode: ModalType, editor: Editor)

  datatype ToolItem = ToolItem(id: string, title: string, readonlyOk: bool, icon: string, onSelect: ToolAction)

  /** A toolbar entry made by `toolbarItem(tool)`. */
  datatype ToolbarItem = ToolbarItem(tool: ToolItem)

  /** The `config.tools` override: every existing tool is kept, and the
      'export' and 'import' entries become the two Bitable tools. */
  function ToolsOverride(lang: Option<string>, e: Editor, tools: map<string, ToolItem>)
    : (r: map<string, ToolItem>)
    ensures r.Keys == tools.Keys + {"export", "import"}
    ensures forall name :: name in tools && name != "export" && name != "import" ==> r[name] == tools[name]
    ensures r["export"].id == "bitable-export" && r["export"].onSelect == OpenDialog(Export, e)
    ensures r["import"].id == "bitable-import" && r["import"].onSelect == OpenDialog(Import, e)
    ensures !r["export"].readonlyOk && !r["import"].readonlyOk
  {
    tools["export" := ToolItem("bitable-export", I18n.Word(lang, I18n.ExportToBitable), false,
                               "bitable-tool-export", OpenDialog(Export, e))]
         ["import" := ToolItem("bitable-import", I18n.Word(lang, I18n.ImportFromBitable), false,
                               "bitable-tool-import", OpenDialog(Import, e))]
  }

  /** The `config.toolbar` override: two insertions at the front, import
      first and export second, so export leads, then import, then the
      original items in their order. The tools it reads are the overridden
      ones, which have both entries. */
  method ToolbarOverride(items: seq<ToolbarItem>, tools: map<string, ToolItem>) returns (r: seq<ToolbarItem>)
    requires "export" in tools && "import" in tools
    ensures |r| == |items| + 2
    ensures r[0] == ToolbarItem(tools["export"]) && r[1] == ToolbarItem(tools["import"])
    ensures r[2..] == items
  {
    r := items;
    r := [ToolbarItem(tools["import"])] + r;
    r := [ToolbarItem(tools["export"])] + r;
  }

  /** The overridden tools always carry the two entries the toolbar
      override reads. */
  lemma ToolbarFindsBitableTools(lang: Option<string>, e: Editor, tools: map<string, ToolItem>)
    ensures var r := ToolsOverride(lang, e, tools); "export" in r && "import" in r
  {
  }

  /** The locale handed to the editor in `onMount`. */
  function MountLocale(lang: string): (l: string)
    ensures l == "zh-cn" <==> lang == I18n.ZH_CN
    ensures l == "zh-cn" || l == "en"
  {
    if lang == I18n.ZH_CN then "zh-cn" else "en"
  }

  /** With the plugin's locale set to the page's locale, the editor speaks
      Chinese exactly when the plugin's words come from the Chinese table. */
  lemma MountLocaleAgreesWithWords(lang: string, k: I18n.LangKey)
    ensures MountLocale(lang) == "zh-cn" <==> I18n.Word(Some(lang), k) == I18n.ZhWord(k)
  {
    I18n.WordChoosesTable(Some(lang), k);
  }

  /** The page component, with its `isDarK` and `lang` props. */
  class Page {
    const isDark: bool
    const lang: string
    var state: PageState

    constructor (isDark: bool, lang: string)
      ensures this.isDark == isDark && this.lang == lang
      ensures state == INITIAL_PAGE_STATE
      ensures RenderedDialog(state).None?
    {
      this.isDark := isDark;
      this.lang := lang;
      state := INITIAL_PAGE_STATE;
    }

    /** `onClickExport`. */
    method OnClickExport(e: Editor)
      modifies this`state
      ensures state == old(state).(editor := Some(e), showConfig := true, modalType := Export)
      ensures RenderedDialog(state) == Some(DialogProps(Export, true, e))
    {
      state := state.(editor := Some(e), showConfig := true, modalType := Export);
    }

    /** `onClickImport`. */
    method OnClickImport(e: Editor)
      modifies this`state
      ensures state == old(state).(editor := Some(e), showConfig := true, modalType := Import)
      ensures RenderedDialog(state) == Some(DialogProps(Import, true, e))
    {
      state := state.(editor := Some(e), showConfig := true, modalType := Import);
    }

    /** Selecting a tool: the Bitable tools open the dialog through the two
        handlers above; any other tool leaves the page alone. */
    method SelectTool(t: ToolItem)
      modifies this`state
      ensures t.onSelect.HostAction? ==> state == old(state)
      ensures t.onSelect.OpenDialog? ==>
        state == old(state).(editor := Some(t.onSelect.editor), showConfig := true, modalType := t.onSelect.mode)
    {
      match t.onSelect
      case HostAction =>
      case OpenDialog(mode, e) =>
        if mode == Export {
          OnClickExport(e);
        } else {
          OnClickImport(e);
        }
    }

    /** `closeModal`: hides the dialog and keeps the editor and mode. */
    method CloseModal()
      modifies this`state
      ensures state == old(state).(showConfig := false)
    {
      state := state.(showConfig := false);
    }

    /** The dialog's cancel, with `closeModal` wired to this page: while a
        confirm is in flight nothing changes; otherwise the selection is
        cleared and the dialog hidden, and the hidden dialog receives
        `visible = false`, which reloads its field options when it was
        visible. */
    method CancelDialog(dialog: ConfigModal)
      modifies this`state, dialog`state, dialog`closeCalls, dialog`visible, dialog`modalType
      ensures old(dialog.state).okLoading ==>
        && state == old(state) && dialog.state == old(dialog.state)
        && dialog.visible == old(dialog.visible) && dialog.modalType == old(dialog.modalType)
      ensures !old(dialog.state).okLoading ==>
        && state == old(state).(showConfig := false)
        && !dialog.visible && dialog.modalType == old(dialog.modalType)
        && (old(dialog.visible) ==> dialog.state == Cleared(old(dialog.state)).(
              loadingField := false, fieldOptionList := Some(FieldOptions(dialog.base.attachmentFields))))
        && (!old(dialog.visible) ==> dialog.state == Cleared(old(dialog.state)))
      ensures dialog.closeCalls == old(dialog.closeCalls) + (if old(dialog.state).okLoading then 0 else 1)
    {
      var calls := dialog.closeCalls;
      dialog.OnCloseModal();
      if dialog.closeCalls != calls {
        CloseModal();
        dialog.DidUpdate(state.showConfig, dialog.modalType);
      }
    }

    /** `onMount`: passes the theme and the mapped locale to the editor. */
    method OnMount(e: Editor)
      modifies e`isDarkMode, e`locale
      ensures e.isDarkMode == isDark && e.locale == MountLocale(lang)
    {
      e.UpdateUserPreferences(isDark, MountLocale(lang));
    }
  }
}

/** The source selector (components/InputSourceSelector.tsx): four tabs, the
    payload captured on each, the generate button's disabled state and what a
    click on it hands to `onGenerate`. */
module Selector {
  import opened Results
  import opened Strings

  /** The part of a browser `File` the app looks at. */
  datatype File = File(name: string, size: nat)

  datatype Tab = Pdf | Text | Url | Youtube

  /** The `type` string a tab emits. */
  function TabId(tab: Tab): string {
    match tab
    case Pdf => "pdf"
    case Text => "text"
    case Url => "url"
    case Youtube => "youtube"
  }

  /** `data: File | string` */
  datatype Payload = FileData(file: File) | TextData(text: string)

  /** The argument of `onGenerate`. */
  datatype Selection = Selection(kind: Tab, data: Payload)

  /** The component's state: the active tab and what each tab has captured. */
  datatype SelectorState = SelectorState(
    activeTab: Tab, file: Option<File>, text: string, url: string, youtubeUrl: string)

  /** The state on mount. */
  function InitialSelector(): (s: SelectorState)
    ensures s.activeTab == Pdf && s.file == None
    ensures s.text == "" && s.url == "" && s.youtubeUrl == ""
  {
    SelectorState(Pdf, None, "", "", "")
  }

  /** `isGenerateButtonDisabled()`: disabled exactly when the whole selector
      is, or the active tab holds nothing to generate from. */
  function IsGenerateButtonDisabled(s: SelectorState, disabled: bool): (r: bool)
    ensures r <==> disabled || !HasContent(s)
  {
    HasContentByTab(s);
    if disabled then true
    else match s.activeTab
      case Pdf => s.file.None?
      case Text => Trim(s.text) == ""
      case Url => Trim(s.url) == ""
      case Youtube => Trim(s.youtubeUrl) == ""
  }

  /** `handleGenerateClick()`: `Some(sel)` when it calls `onGenerate(sel)`,
      `None` when it returns without calling it. */
  function HandleGenerateClick(s: SelectorState, disabled: bool): (r: Option<Selection>)
    ensures r.Some? <==> !disabled && HasContent(s)
    ensures r.Some? ==> r.value == Selection(s.activeTab, ActivePayload(s).value)
  {
    HasContentByTab(s);
    if disabled then None
    else match s.activeTab
      case Pdf => if s.file.Some? then Some(Selection(Pdf, FileData(s.file.value))) else None
      case Text => if Trim(s.text) != "" then Some(Selection(Text, TextData(s.text))) else None
      case Url => if Trim(s.url) != "" then Some(Selection(Url, TextData(s.url))) else None
      case Youtube =>
        if Trim(s.youtubeUrl) != "" then Some(Selection(Youtube, TextData(s.youtubeUrl))) else None
  }

  /** The payload the active tab holds, untrimmed. */
  function ActivePayload(s: SelectorState): Option<Payload> {
    match s.activeTab
    case Pdf => if s.file.Some? then Some(FileData(s.file.value)) else None
    case Text => Some(TextData(s.text))
    case Url => Some(TextData(s.url))
    case Youtube => Some(TextData(s.youtubeUrl))
  }

  /** The active tab holds something to generate from: a chosen file, or a
      text that is not all whitespace. */
  predicate HasContent(s: SelectorState) {
    ActivePayload(s).Some?
    && !(ActivePayload(s).value.TextData? && IsBlank(ActivePayload(s).value.text))
  }

  /** What `HasContent` means on each tab, in the terms the component tests:
      a chosen file, or a payload whose `trim()` is not empty. */
  lemma HasContentByTab(s: SelectorState)
    ensures s.activeTab == Pdf ==> (HasContent(s) <==> s.file.Some?)
    ensures s.activeTab == Text ==> (HasContent(s) <==> Trim(s.text) != "")
    ensures s.activeTab == Url ==> (HasContent(s) <==> Trim(s.url) != "")
    ensures s.activeTab == Youtube ==> (HasContent(s) <==> Trim(s.youtubeUrl) != "")
  {
    match s.activeTab
    case Pdf =>
    case Text => TrimEmptyIffBlank(s.text);
    case Url => TrimEmptyIffBlank(s.url);
    case Youtube => TrimEmptyIffBlank(s.youtubeUrl);
  }

  /** A click fires exactly when the button is enabled. */
  lemma ClickFiresIffEnabled(s: SelectorState, disabled: bool)
    ensures HandleGenerateClick(s, disabled).Some? <==> !IsGenerateButtonDisabled(s, disabled)
  {
  }

  /** While the whole selector is disabled a click never fires. */
  lemma DisabledNeverFires(s: SelectorState)
    ensures HandleGenerateClick(s, true) == None && IsGenerateButtonDisabled(s, true)
  {
  }

  /** What a click fires, tab by tab: on the pdf tab it fires exactly when a
      file is chosen; on the other tabs exactly when the payload is not all
      whitespace. The emitted type is the active tab and the emitted data is
      the payload as typed, not trimmed. */
  lemma ClickByTab(s: SelectorState)
    ensures s.activeTab == Pdf ==>
      (HandleGenerateClick(s, false).Some? <==> s.file.Some?)
    ensures s.activeTab == Text ==>
      (HandleGenerateClick(s, false).Some? <==> !IsBlank(s.text))
    ensures s.activeTab == Url ==>
      (HandleGenerateClick(s, false).Some? <==> !IsBlank(s.url))
    ensures s.activeTab == Youtube ==>
      (HandleGenerateClick(s, false).Some? <==> !IsBlank(s.youtubeUrl))
    ensures HandleGenerateClick(s, false).Some? ==>
      HandleGenerateClick(s, false) == Some(Selection(s.activeTab, ActivePayload(s).value))
  {
  }

  /** The freshly mounted selector cannot generate: no file is chosen yet. */
  lemma InitialCannotGenerate(disabled: bool)
    ensures IsGenerateButtonDisabled(InitialSelector(), disabled)
    ensures HandleGenerateClick(InitialSelector(), disabled) == None
  {
  }
}

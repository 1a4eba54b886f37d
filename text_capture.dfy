/**
 * TextCaptureService.swift: how the macOS app finds the text to translate.
 * It asks the Accessibility API for the focused element's selected text (or
 * its value) and falls back to the general pasteboard.  The AX and pasteboard
 * reads are inputs: an `AxSnapshot` says what each read would return.
 */
module TextCapture {
  import opened Common
  import opened Models

  /** What the Accessibility reads return: whether the process is trusted,
      whether there is a frontmost application and a focused element, and the
      selected-text and value attributes when they read successfully as strings. */
  datatype AxSnapshot = AxSnapshot(
    trusted: bool, hasFrontmostApplication: bool, hasFocusedElement: bool,
    selectedText: Option<string>, value: Option<string>)

  /** An attribute read that yields a non-empty string. */
  predicate NonEmpty(attribute: Option<string>) {
    attribute.Some? && attribute.value != []
  }

  /** `getTextFromAccessibility` */
  function TextFromAccessibility(ax: AxSnapshot): (r: Result<string, TextCaptureError>)
    ensures r == Err(AccessibilityPermissionDenied) <==> !ax.trusted
    ensures r == Err(NoFrontmostApplication) <==> ax.trusted && !ax.hasFrontmostApplication
    ensures r == Err(NoFocusedElement) <==> ax.trusted && ax.hasFrontmostApplication && !ax.hasFocusedElement
    ensures r.Ok? <==> ax.trusted && ax.hasFrontmostApplication && ax.hasFocusedElement
                       && (NonEmpty(ax.selectedText) || NonEmpty(ax.value))
    ensures r.Ok? ==> r.value != [] && (ax.selectedText == Some(r.value) || ax.value == Some(r.value))
    ensures r.Ok? && NonEmpty(ax.selectedText) ==> r.value == ax.selectedText.value
    ensures r.Err? ==> r.error in {AccessibilityPermissionDenied, NoFrontmostApplication, NoFocusedElement, NoTextFound}
  {
    if !ax.trusted then Err(AccessibilityPermissionDenied)
    else if !ax.hasFrontmostApplication then Err(NoFrontmostApplication)
    else if !ax.hasFocusedElement then Err(NoFocusedElement)
    else if NonEmpty(ax.selectedText) then Ok(ax.selectedText.value)
    else if NonEmpty(ax.value) then Ok(ax.value.value)
    else Err(NoTextFound)
  }

  /** `getTextFromClipboard`: the pasteboard string, unless it is missing or blank. */
  function TextFromClipboard(pasteboard: Option<string>): (r: Option<string>)
    ensures r.Some? <==> pasteboard.Some? && !SwiftIsBlank(pasteboard.value)
    ensures r.Some? ==> r.value == pasteboard.value
  {
    if pasteboard.None? || SwiftIsBlank(pasteboard.value) then None else pasteboard
  }

  /** `captureSelectedText`: accessibility first (any failure swallowed), then the
      clipboard, then `TranslationError.noTextSelected`. */
  function CaptureSelectedText(ax: AxSnapshot, pasteboard: Option<string>): (r: Result<string, TranslationError>)
    ensures r.Err? <==> TextFromAccessibility(ax).Err? && TextFromClipboard(pasteboard).None?
    ensures r.Err? ==> r.error == NoTextSelected
    ensures TextFromAccessibility(ax).Ok? ==> r == Ok(TextFromAccessibility(ax).value)
  {
    match TextFromAccessibility(ax)
    case Ok(text) => Ok(text)
    case Err(_) =>
      match TextFromClipboard(pasteboard)
      case Some(text) => Ok(text)
      case None => Err(NoTextSelected)
  }

  /** Captured text is never empty; it is blank only when the selection itself
      was (the clipboard path rejects blank strings). */
  lemma CapturedTextNonEmpty(ax: AxSnapshot, pasteboard: Option<string>)
    ensures var r := CaptureSelectedText(ax, pasteboard);
      r.Ok? ==> r.value != [] && (SwiftIsBlank(r.value) ==> TextFromAccessibility(ax) == Ok(r.value))
  {
  }

  /** Whatever the accessibility path fails with, the clipboard decides. */
  lemma AccessibilityFailureFallsThrough(ax: AxSnapshot, pasteboard: Option<string>)
    requires TextFromAccessibility(ax).Err?
    ensures CaptureSelectedText(ax, pasteboard)
      == if pasteboard.Some? && !SwiftIsBlank(pasteboard.value) then Ok(pasteboard.value) else Err(NoTextSelected)
  {
  }

  /** The accessibility path takes a whitespace-only selection, which the
      clipboard path would refuse. */
  lemma WhitespaceSelectionAccepted(ax: AxSnapshot)
    requires ax.trusted && ax.hasFrontmostApplication && ax.hasFocusedElement
    requires ax.selectedText == Some(" ")
    ensures CaptureSelectedText(ax, Some(" ")) == Ok(" ")
    ensures TextFromClipboard(Some(" ")).None?
  {
  }
}

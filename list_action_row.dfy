/**
 A list row that shows a title above a text, with an optional trailing view.
 When the row is asked to hide itself if empty and its text holds only
 horizontal whitespace, it renders as an empty view instead.
 */
module ListActionRows {
  import opened Wrappers

  /**
   The horizontal whitespace characters that are trimmed before the emptiness
   test: the tab and the Unicode space separators (general category Zs). Line
   and paragraph separators such as '\n' are not among them.
   */
  const Whitespaces: set<char> := {
    '\t', ' ', '\U{00A0}', '\U{1680}',
    '\U{2000}', '\U{2001}', '\U{2002}', '\U{2003}', '\U{2004}', '\U{2005}',
    '\U{2006}', '\U{2007}', '\U{2008}', '\U{2009}', '\U{200A}',
    '\U{202F}', '\U{205F}', '\U{3000}'
  }

  /** The number of whitespace characters `s` starts with. */
  function LeadingWhitespace(s: string): (n: nat)
    ensures n <= |s|
    ensures forall i :: 0 <= i < n ==> s[i] in Whitespaces
    ensures n < |s| ==> s[n] !in Whitespaces
  {
    if s != [] && s[0] in Whitespaces then 1 + LeadingWhitespace(s[1..]) else 0
  }

  /** The number of whitespace characters `s` ends with. */
  function TrailingWhitespace(s: string): (n: nat)
    ensures n <= |s|
    ensures forall i :: |s| - n <= i < |s| ==> s[i] in Whitespaces
    ensures n < |s| ==> s[|s| - 1 - n] !in Whitespaces
  {
    if s != [] && s[|s| - 1] in Whitespaces then 1 + TrailingWhitespace(s[..|s| - 1]) else 0
  }

  /**
   `s` with whitespace removed from both ends: the part of `s` with only
   whitespace before and after it that starts and ends with a character that is
   not whitespace, or empty when `s` is all whitespace.
   */
  function Trim(s: string): (r: string)
    ensures r == [] <==> forall i :: 0 <= i < |s| ==> s[i] in Whitespaces
    ensures r != [] ==> r[0] !in Whitespaces && r[|r| - 1] !in Whitespaces
    ensures exists a :: TrimmedAt(s, a, r)
  {
    var a := LeadingWhitespace(s);
    if a == |s| then
      assert TrimmedAt(s, a, []);
      []
    else
      var b := |s| - TrailingWhitespace(s);
      assert a < b;
      assert TrimmedAt(s, a, s[a..b]);
      s[a..b]
  }

  /** `r` is the part of `s` that starts at `a`, with only whitespace before and after it. */
  ghost predicate TrimmedAt(s: string, a: int, r: string)
  {
    && 0 <= a <= |s| - |r|
    && r == s[a..a + |r|]
    && (forall i :: 0 <= i < a ==> s[i] in Whitespaces)
    && (forall i :: a + |r| <= i < |s| ==> s[i] in Whitespaces)
  }

  /** Whether the text is empty once whitespace is trimmed from both ends. */
  function HasEmptyText(text: string): (b: bool)
    ensures b <==> forall i :: 0 <= i < |text| ==> text[i] in Whitespaces
  {
    Trim(text) == []
  }

  /** The trailing view type of a row created without one. */
  datatype EmptyView = EmptyView

  /** A row: its stored title, text, hiding flag and trailing view (absent for the plain initializer). */
  datatype ListActionRow<V> = ListActionRow(title: string, text: string, hideIfEmpty: bool, trailingView: Option<V>)

  /** What a row renders: nothing, or the stack of title and text, followed by a spacer and the trailing view when there is one. */
  datatype Content<V> =
    | Empty  // the `EmptyView()` branch of the body, not the trailing view type above
    | Stack(title: string, text: string, trailing: Option<V>)

  /** The initializer with a trailing view; `hideIfEmpty` defaults to false. */
  function WithTrailingView<V>(title: string, text: string, hideIfEmpty: bool := false, trailingView: V): (row: ListActionRow<V>)
    ensures row.title == title && row.text == text && row.hideIfEmpty == hideIfEmpty
    ensures row.trailingView == Some(trailingView)
  {
    ListActionRow(title, text, hideIfEmpty, Some(trailingView))
  }

  /** The initializer without a trailing view; `hideIfEmpty` defaults to false. */
  function Plain(title: string, text: string, hideIfEmpty: bool := false): (row: ListActionRow<EmptyView>)
    ensures row.title == title && row.text == text && row.hideIfEmpty == hideIfEmpty
    ensures row.trailingView == None
  {
    ListActionRow(title, text, hideIfEmpty, None)
  }

  /** The row's rendering: empty exactly when it hides if empty and its text is all whitespace. */
  function Body<V>(row: ListActionRow<V>): (c: Content<V>)
    ensures c.Empty? <==> row.hideIfEmpty && forall i :: 0 <= i < |row.text| ==> row.text[i] in Whitespaces
    ensures c.Stack? ==> c.title == row.title && c.text == row.text && c.trailing == row.trailingView
  {
    if HasEmptyText(row.text) && row.hideIfEmpty then Empty else Stack(row.title, row.text, row.trailingView)
  }

  /** The newline is not trimmed, so a text holding a newline is never empty. */
  lemma NewlineTextIsNotEmpty(text: string)
    requires '\n' in text
    ensures !HasEmptyText(text)
  {
  }

  /** A row that does not hide if empty always renders its stack, with its text as given. */
  lemma NotHidingRowIsShown<V>(row: ListActionRow<V>)
    requires !row.hideIfEmpty
    ensures Body(row).Stack? && Body(row).text == row.text
  {
  }

  /** A row built with the default hiding flag is shown whatever its text. */
  lemma DefaultRowsAreShown<V>(title: string, text: string, trailingView: V)
    ensures Body(Plain(title, text)).Stack?
    ensures Body(WithTrailingView(title, text, trailingView := trailingView)).Stack?
  {
  }

  /** A plain row never renders a spacer or trailing view. */
  lemma PlainRowHasNoTrailingView(title: string, text: string, hideIfEmpty: bool)
    ensures Body(Plain(title, text, hideIfEmpty)) == Empty || Body(Plain(title, text, hideIfEmpty)).trailing == None
  {
  }

  /** An empty-text row that hides if empty renders nothing; the same row that does not hide renders its stack. */
  lemma EmptyTextRows()
    ensures Body(Plain("title 4", "", true)) == Empty
    ensures Body(Plain("title 5", "", false)) == Stack("title 5", "", None)
  {
  }
}

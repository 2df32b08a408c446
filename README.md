# SwiftUIKit behavioural core in Dafny

SwiftUIKit is a library of reusable SwiftUI views. Almost all of it is view
composition; this project models the few pieces that have behaviour of their own:

- `GestureTimer`, a stopwatch with a start operation and an elapsed-time read
  (`gesture_timer.dfy`, module `GestureTimers`). It is a class whose only field
  is the optional reference instant. The clock is an integer argument `now`
  instead of `Date()`. A sequence of client calls (`Call`, `Replay`, `Readings`)
  states the lifecycle: the first start wins, a started timer stays started,
  and with a clock that never goes backwards the readings are non-negative and
  never decrease. The method `Run` is a client that makes such a sequence of
  calls on a real `GestureTimer` object. Its contract ties the class to the
  call-sequence model, so the lifecycle lemmas hold for the class too.
- `ListActionRow`'s visibility rule (`list_action_row.dfy`, module
  `ListActionRows`): trimming horizontal whitespace from both ends, the
  emptiness test, the two initializers and the choice between the empty view
  and the title/text stack.
- `ListBadgeIcon`'s configuration (`list_badge_icon.dfy`, module
  `ListBadgeIcons`): what each initializer stores, the white-badge helper, the
  presets and the three-way choice of the icon's foreground style.
- Preview detection on `ProcessInfo` (`preview_inspector.dfy`, module
  `PreviewInspector`): an exact lookup of `XCODE_RUNNING_FOR_PREVIEWS` = `"1"`
  in the environment map.

`wrappers.dfy` holds the `Option` datatype that stands for Swift optionals.

Modelling choices:

- The whitespace set trimmed by `hasEmptyText` is Foundation's
  `CharacterSet.whitespaces`, written out as the tab and the Unicode space
  separators (category Zs). It holds no line breaks.
- Colours are a datatype, and two colours are equal exactly when they are the
  same value. So `Hex(0xffffff)` is not `White`, which matches how SwiftUI
  compares a hex-built colour with `.white`.
- Images are identified by their symbol name.
- One piece of styling is modelled: the multicolor symbol rendering mode that
  `multiColor()` applies. It is kept because the `multicolorPalette` preset is
  built from it. All other styling is left to SwiftUI.
- `ProcessInfo` is reduced to its environment map. The shared
  `ProcessInfo.processInfo` instance is passed in as an argument.

## Model

| member | source | states |
|---|---|---|
| `GestureTimers.GestureTimer.constructor` | Sources/SwiftUIKit/Gestures/GestureTimer.swift:20-22 | a new timer is unstarted: it has no reference instant |
| `GestureTimers.GestureTimer.Start` | Sources/SwiftUIKit/Gestures/GestureTimer.swift:35-38 | an unstarted timer records `now` as its reference instant; a started timer keeps the one it has |
| `GestureTimers.GestureTimer.ElapsedTime` | Sources/SwiftUIKit/Gestures/GestureTimer.swift:27-30 | returns 0 when unstarted, and otherwise the difference between `now` and the reference instant; it changes nothing |
| `GestureTimers.AfterStart` | Sources/SwiftUIKit/Gestures/GestureTimer.swift:35-38 | after a start the timer is always started; the earlier reference instant is kept, and only an unstarted timer takes `now` |
| `GestureTimers.StartIsIdempotent` | Sources/SwiftUIKit/Gestures/GestureTimer.swift:36 | a second start, at any clock value, leaves the reference instant of the first |
| `GestureTimers.FreshTimerReadsZero` | Sources/SwiftUIKit/Gestures/GestureTimer.swift:28 | an unstarted timer reads 0 at every clock value |
| `GestureTimers.StartedStaysStarted` | Sources/SwiftUIKit/Gestures/GestureTimer.swift:22-38 | no sequence of calls returns a started timer to unstarted or moves its reference instant |
| `GestureTimers.NeverStartedReadsZero` | Sources/SwiftUIKit/Gestures/GestureTimer.swift:20-30 | a new timer that is only read stays unstarted and every reading is 0 |
| `GestureTimers.FirstStartIsReference` | Sources/SwiftUIKit/Gestures/GestureTimer.swift:35-38 | after any sequence of calls, the reference instant of a new timer is the clock value of its first start |
| `GestureTimers.ReadingsBoundedBelow` | Sources/SwiftUIKit/Gestures/GestureTimer.swift:27-38 | with a clock that never goes backwards, every later reading is at least the reading at an earlier time, and that reading is non-negative |
| `GestureTimers.ReadingsNonNegativeAndNonDecreasing` | Sources/SwiftUIKit/Gestures/GestureTimer.swift:27-38 | with a clock that never goes backwards, the readings of a timer are non-negative and non-decreasing |
| `GestureTimers.Readings` | Sources/SwiftUIKit/Gestures/GestureTimer.swift:27-30 | a sequence of calls returns exactly one reading per `ElapsedTime` call, and on a started timer each reading is that call's clock value less the reference instant |
| `GestureTimers.ReplayAppend` | Sources/SwiftUIKit/Gestures/GestureTimer.swift:27-38 | one more call changes the state by that call's start step and, when it is a read, adds the elapsed time of the state reached so far as the last reading |
| `GestureTimers.Run` | Sources/SwiftUIKit/Gestures/GestureTimer.swift:18-39 | a client that makes a sequence of calls on a real timer leaves it in the state the call-sequence model replays to, and collects exactly the model's readings |
| `ListActionRows.LeadingWhitespace` | Sources/SwiftUIKit/Lists/ListActionRow.swift:80 | counts the whitespace the text starts with: every character before the count is whitespace, and the one at the count, if any, is not |
| `ListActionRows.TrailingWhitespace` | Sources/SwiftUIKit/Lists/ListActionRow.swift:80 | counts the whitespace the text ends with: every character after the cut is whitespace, and the one just before it, if any, is not |
| `ListActionRows.Trim` | Sources/SwiftUIKit/Lists/ListActionRow.swift:80 | the trimmed text is a contiguous part of the text with only whitespace removed before and after it; it is empty exactly when every character is whitespace, and otherwise starts and ends with a character that is not whitespace |
| `ListActionRows.HasEmptyText` | Sources/SwiftUIKit/Lists/ListActionRow.swift:79-82 | the text counts as empty exactly when every character is in the horizontal whitespace set |
| `ListActionRows.NewlineTextIsNotEmpty` | Sources/SwiftUIKit/Lists/ListActionRow.swift:80 | newlines are not trimmed, so a text that holds one is never empty |
| `ListActionRows.WithTrailingView` | Sources/SwiftUIKit/Lists/ListActionRow.swift:29-39 | the row stores the caller's title and text unchanged, `hideIfEmpty` defaults to false, and the trailing view is present |
| `ListActionRows.Plain` | Sources/SwiftUIKit/Lists/ListActionRow.swift:49-58 | the row stores the caller's title and text unchanged, `hideIfEmpty` defaults to false, and there is no trailing view |
| `ListActionRows.Body` | Sources/SwiftUIKit/Lists/ListActionRow.swift:68-100 | the row renders nothing exactly when it hides if empty and its text is all whitespace; otherwise it renders the stack with the untrimmed text and the stored trailing view |
| `ListActionRows.NotHidingRowIsShown` | Sources/SwiftUIKit/Lists/ListActionRow.swift:68-74 | a row that does not hide if empty is shown whatever its text |
| `ListActionRows.DefaultRowsAreShown` | Sources/SwiftUIKit/Lists/ListActionRow.swift:29-58 | rows built with the default flag, by either initializer, are always shown |
| `ListActionRows.PlainRowHasNoTrailingView` | Sources/SwiftUIKit/Lists/ListActionRow.swift:94-97 | a row without a trailing view renders no spacer or trailing view |
| `ListActionRows.EmptyTextRows` | Sources/SwiftUIKit/Lists/ListActionRow.swift:125-132 | an empty text renders nothing when the row hides if empty, and the stack when it does not |
| `ListBadgeIcons.WithBadgeColor` | Sources/SwiftUIKit/Lists/ListBadgeIcon.swift:36-47 | the badge-colour initializer always gives a clear stroke, a white icon without gradient, and height 30 by default |
| `ListBadgeIcons.WithIconColor` | Sources/SwiftUIKit/Lists/ListBadgeIcon.swift:60-73 | the stroke is light gray `0xeeeeee` exactly when the badge is white and clear otherwise; the gradient defaults to on and the height to 30 |
| `ListBadgeIcons.ForegroundColor` | Sources/SwiftUIKit/Lists/ListBadgeIcon.swift:164-175 | a gradient of the colour when there is a colour and the condition holds, the plain colour when there is a colour and it does not, and no change without a colour |
| `ListBadgeIcons.IconForeground` | Sources/SwiftUIKit/Lists/ListBadgeIcon.swift:91 | the icon keeps its own colours exactly when it has no icon colour; otherwise it is drawn in that colour, as a gradient exactly when the gradient flag is set |
| `ListBadgeIcons.WhiteBadge` | Sources/SwiftUIKit/Lists/ListBadgeIcon.swift:135-144 | a white badge keeps the given icon and icon colour, with a gradient and the light gray stroke |
| `ListBadgeIcons.MultiColor` | Sources/SwiftUIKit/Lists/ListBadgeIcon.swift:147-149 | the badge is kept and its symbol is rendered in multiple colours |
| `ListBadgeIcons.MulticolorPalette` | Sources/SwiftUIKit/Lists/ListBadgeIcon.swift:102-107 | a white palette badge with no icon colour, so the icon keeps its own colours, rendered in multiple colours |
| `ListBadgeIcons.RedHeart` | Sources/SwiftUIKit/Lists/ListBadgeIcon.swift:110-115 | a white heart badge with the light gray stroke and a red gradient icon |
| `ListBadgeIcons.Settings` | Sources/SwiftUIKit/Lists/ListBadgeIcon.swift:118-124 | a gray gear badge with a clear stroke and a white gradient icon |
| `ListBadgeIcons.YellowStar` | Sources/SwiftUIKit/Lists/ListBadgeIcon.swift:127-132 | a white star badge with the light gray stroke and a yellow gradient icon |
| `ListBadgeIcons.BadgeColorOnlyDrawsSolidWhiteIcon` | Sources/SwiftUIKit/Lists/ListBadgeIcon.swift:36-47 | a badge built from a badge colour alone draws its icon in plain white, with no visible stroke |
| `ListBadgeIcons.InitializersAgreeExceptStrokeAndGradient` | Sources/SwiftUIKit/Lists/ListBadgeIcon.swift:36-73 | given a white icon without gradient, the icon-colour initializer gives the same badge as the badge-colour one, except for the stroke of a white badge |
| `PreviewInspector.ProcessInfo.IsSwiftUIPreview` | Sources/SwiftUIKit/Previews/ProcessInfo+SwiftPreviewInspector.swift:27-29 | the process is in a preview exactly when the environment maps `XCODE_RUNNING_FOR_PREVIEWS` to exactly `"1"` |
| `PreviewInspector.Lookup` | Sources/SwiftUIKit/Previews/ProcessInfo+SwiftPreviewInspector.swift:28 | the lookup finds a value exactly when the variable is set, and then it is that variable's value |
| `PreviewInspector.StaticIsSwiftUIPreview` | Sources/SwiftUIKit/Previews/ProcessInfo+SwiftPreviewInspector.swift:43-45 | the static property answers as the shared process information does |
| `PreviewInspector.AbsentKeyIsNotPreview` | Sources/SwiftUIKit/Previews/ProcessInfo+SwiftPreviewInspector.swift:28 | without the variable the process is not in a preview |
| `PreviewInspector.OtherValueIsNotPreview` | Sources/SwiftUIKit/Previews/ProcessInfo+SwiftPreviewInspector.swift:28 | any value other than exactly `"1"`, such as `"0"`, `"true"` or `"1 "`, means no preview |
| `PreviewInspector.OneIsPreview` | Sources/SwiftUIKit/Previews/ProcessInfo+SwiftPreviewInspector.swift:28 | the value `"1"` means a preview, whatever else the environment holds |
| `PreviewInspector.OtherKeysDoNotMatter` | Sources/SwiftUIKit/Previews/ProcessInfo+SwiftPreviewInspector.swift:28 | setting or removing any other variable does not change the answer |

## Left out

- All view layout and styling: stacks, padding, corner radii, aspect ratios, fonts, symbol variants, how gradients are drawn, and the preview blocks. These belong to SwiftUI.
- The wall clock and floating-point `TimeInterval` arithmetic of `GestureTimer`. The clock is an integer argument, and clock adjustments are not modelled.
- Thread safety of `GestureTimer`: the source makes no concurrency contract.
- The exact Unicode tables behind `CharacterSet.whitespaces`. The model uses the fixed set described above.
- `ListActionRow`'s trailing view is a closure; the model stores the view it would build, of any type.
- `Sources/SwiftUIKit/Presentation/FullScreenCoverContext.swift`: it only forwards to `PresentationContext`, which is not part of this model.
- `Sources/SwiftUIKit/_Deprecated/List+Deprecated.swift`: every initializer forwards to initializers that are not part of this model.

# PostCard: relative time, text truncation and comment count

This project models the logic of the social feed's post card
(`components/social/PostCard.jsx`) and proves properties of it. It covers three parts:

- **Relative time** (`formatTimeAgo`). The post's age is floored to whole
  seconds. It then falls into one of four buckets: "ახლა ხანს" (just now)
  under a minute, then whole minutes, hours or days followed by "წინ" (ago).
  The clock reading and the parsed creation time are parameters, in
  milliseconds. A timestamp that does not parse is `None`. JavaScript's Date
  is then NaN and every comparison fails, so the code falls through to the
  days branch and prints "NaN დღის წინ". The model keeps that output.
- **"See more" truncation**. A post longer than 300 characters shows its
  first 300 until the reader expands it. A toggle button switches between
  "მეტის ნახვა" (see more) and "ნახვა ნაკლები" (see less). JavaScript measures
  and slices strings in UTF-16 code units, so the text is a sequence of
  code units. A cut at 300 can therefore split a surrogate pair. The model
  keeps that behaviour.
- **Comment count**. The count is 0 when the comment list is absent and
  the list's length otherwise. The button shows the bare word "კომენტარი"
  (comment) for 0 and the count before the word otherwise.

The card's `useState` flags are fields of the class `PostCardView.PostCard`:
the expanded-text flag, the open dialog and the delete warning. Their handlers
are methods of that class.

Modules:
- `Wrappers` holds `Option`.
- `Decimal` renders numbers as `${n}` does.
- `TimeAgo`, `PostText`, `Comments` and `PostCardView` hold the logic above.

## Model

| member | source | states |
|---|---|---|
| `Decimal.NatToString` | components/social/PostCard.jsx:32 | A count in a template literal is a non-empty string of digits with no leading zero unless the count is 0. It is a single digit exactly when the count is below 10. |
| `Decimal.ParseNatToString` | components/social/PostCard.jsx:32 | Reading the rendered digits back gives the number. |
| `Decimal.NatToStringInjective` | components/social/PostCard.jsx:32 | Two counts render alike if and only if they are equal. |
| `Decimal.SplitAtFirstSpace` | components/social/PostCard.jsx:32 | A numeral followed by text that begins with a space splits into the two parts in only one way. |
| `TimeAgo.SecondsBetween` | components/social/PostCard.jsx:26 | The whole seconds `s` satisfy 1000·s ≤ now − posted < 1000·(s+1). This is floor division, also for a timestamp in the future. |
| `TimeAgo.PluralSuffix` | components/social/PostCard.jsx:32 | The plural ending is empty whatever the count, because both arms of the ternary are "". |
| `TimeAgo.Classify` | components/social/PostCard.jsx:28-39 | Under 60 s gives "just now". [60, 3600) gives minutes, [3600, 86400) gives hours and 86400 or more gives days. The count is the floor of seconds per unit, so minutes are in [1, 59], hours in [1, 23] and days are at least 1. |
| `TimeAgo.FormatTimeAgo` | components/social/PostCard.jsx:23-40 | An unparsable timestamp gives "NaN დღის წინ". Otherwise the text is "ახლა ხანს" if and only if less than 60000 ms have passed. It is floor(ms/60000) minutes for [60000, 3600000) ms, floor(ms/3600000) hours for [3600000, 86400000) ms and floor(ms/86400000) days beyond that. |
| `TimeAgo.RenderStart` | components/social/PostCard.jsx:29-38 | A label's text starts with a digit exactly for a count, and with 'N' exactly for the NaN label. |
| `TimeAgo.RenderIsJustNow` | components/social/PostCard.jsx:29 | Only the "just now" label renders as "ახლა ხანს". |
| `TimeAgo.FloorOfFloor` | components/social/PostCard.jsx:26-37 | Flooring milliseconds to seconds and then seconds to units equals flooring milliseconds to units. |
| `TimeAgo.UniqueQuotient` | components/social/PostCard.jsx:31-37 | A number of seconds lies in exactly one interval [c·unit, (c+1)·unit), so the count is unique. |
| `TimeAgo.ClassifyExactly` | components/social/PostCard.jsx:28-39 | The four buckets are exhaustive and disjoint. A possible label is produced exactly for the seconds in its interval, in both directions. |
| `TimeAgo.RenderInjective` | components/social/PostCard.jsx:28-39 | Different labels render as different texts. |
| `TimeAgo.SameTextIffSameLabel` | components/social/PostCard.jsx:26-39 | Two (now, posted) pairs give the same text if and only if their elapsed seconds give the same bucket and count. The elapsed seconds alone decide the output. |
| `TimeAgo.LabelAdvancesWithClock` | components/social/PostCard.jsx:26-39 | As `now` grows, the label never goes back. It goes from just now to minutes, hours and days, and within one unit the count never decreases. |
| `PostText.DisplayedText` | components/social/PostCard.jsx:90-92 | The shown text is always a prefix of the post. When collapsed it is at most 300 units long, and exactly 300 for a longer post. It is the whole text when expanded or when the post has at most 300 units. |
| `PostText.ToggleButton` | components/social/PostCard.jsx:138-145 | The button exists exactly when the text is longer than 300. It reads "see less" when the text is expanded and "see more" when it is collapsed. |
| `PostText.SeeMoreExactlyWhenCut` | components/social/PostCard.jsx:135-138 | "See more" is offered exactly when the collapsed display differs from the full text. |
| `PostText.CollapsedPrefixOfExpanded` | components/social/PostCard.jsx:135-137 | The collapsed display is a prefix of the expanded display, and the expanded display is the whole text. |
| `Comments.CommentCount` | components/social/PostCard.jsx:93 | The count is 0 exactly when the comment list is absent or empty, so both show the bare word. A present list gives its length. |
| `Comments.CommentLabel` | components/social/PostCard.jsx:176 | The label is the bare word exactly when the count is 0. Otherwise it is the count's digits, a space and the word. |
| `Comments.BareWordIffNoComments` | components/social/PostCard.jsx:93 | The label has no number exactly when the list is absent or empty. |
| `Comments.CommentLabelInjective` | components/social/PostCard.jsx:176-179 | Different counts give different labels. |
| `PostCardView.PostCard.constructor` | components/social/PostCard.jsx:53-58 | A mounted card starts collapsed, with the dialog and the delete warning closed. |
| `PostCardView.PostCard.Paragraph` | components/social/PostCard.jsx:135-137 | The card's paragraph is a prefix of the post. It is all of the post when expanded, and min(length, 300) units long when collapsed. |
| `PostCardView.PostCard.Toggle` | components/social/PostCard.jsx:138-145 | The card's toggle exists exactly for a post over 300 units. It offers "see less" when expanded and "see more" when collapsed. |
| `PostCardView.PostCard.CommentButton` | components/social/PostCard.jsx:176-177 | The card's comment button shows the bare word exactly when the post's comment list is absent or empty. Otherwise it shows the list's length, a space and the word. |
| `PostCardView.PostCard.ToggleFullText` | components/social/PostCard.jsx:60-62 | The expanded flag is negated, no other field changes, and the paragraph follows the new flag. |
| `PostCardView.PostCard.ConfirmDelete` | components/social/PostCard.jsx:64-66 | Raises the delete warning and changes nothing else. |
| `PostCardView.PostCard.DismissWarning` | components/social/PostCard.jsx:186-188 | Cancelling or agreeing closes the delete warning. |
| `PostCardView.PostCard.OpenDialog` | components/social/PostCard.jsx:159 | Clicking the picture or the comment button opens the post dialog. |
| `PostCardView.PostCard.CloseDialog` | components/social/PostCard.jsx:196 | The dialog's close handlers close it. |
| `PostCardView.ToggleTwiceRestores` | components/social/PostCard.jsx:60-62 | Toggling twice restores the flag, the shown text and every other flag. |

## Left out

- Reading the clock (`new Date()`) and parsing the timestamp string (components/social/PostCard.jsx:24-25): both are environment input. They are parameters `now` and `posted`, with `None` for a timestamp that does not parse.
- Decimal.NatToString: gives digits for every count. JavaScript switches to exponent notation at 10^21. No count reaches that, because Date values lie within ±8.64·10^15 ms.
- `handleDelete` and the `DeletePost` call (components/social/PostCard.jsx:68-87), including the `isDeleting` flag: these are network calls. The warning's agree handler is modelled only as closing the warning.
- `handleNewComment` and its `IsAddingComment` flag (components/social/PostCard.jsx:46-52): this is a 2-second timer.
- The author's display name, the owner-only menu, the time-ago and subject description and the rest of the JSX (components/social/PostCard.jsx:95-358): this is rendering only.
- components/navbar/navbar.tsx, app/user/forgot-password/page.tsx, app/user/auth/layout.tsx, app/layouts/Mainlayout.tsx, app/user/profile/page.tsx, app/users/auth/oauth/page.tsx, app/learn/course/c-plus-advanced/page.tsx and app/[lang]/social/ssrposts.tsx: these are markup, redirects, authentication calls, polling timers and data fetching.
- The lesson progression engine (app/[lang]/learn/course/[course]/lesson/page.tsx) is not part of this model.

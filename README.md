# Ignite Call: calendar grid, availability form and username rules in Dafny

This project models the client-side logic of the Ignite Call scheduling app.
Users claim a username, register, set their weekly availability, and visitors
pick a day on a public calendar. The model covers four pieces of that logic,
with the React, dayjs and zod plumbing peeled away:

- **The calendar month grid** (`calendar.dfy`, module `Calendar`). The grid
  shows the displayed month with a leading fill from the previous month and a
  trailing fill from the next month. Every cell is marked enabled or disabled.
  The cells are then cut into numbered weeks of 7.
  - Dates are abstract. Each cell records its month (previous, current, next),
    its day of month and its weekday.
  - The month is described by the weekday of day 1, its number of days and
    the previous month's number of days.
  - "Already past" is a predicate passed in, in place of the wall clock.
  - The week chunking is a `reduce` that pushes into an accumulator. It is
    modelled as a method with a loop (`ChunkWeeks`), proved against the
    index-based specification `WeeksOf`.
  - Month navigation is a class (`CurrentDate`) whose date always sits on
    day 1.
  - The zero-padded `month` query parameter is also modelled.
- **The weekly interval schema** (`time_intervals.dfy`, module
  `TimeIntervals`). It takes exactly 7 entries with weekdays in 0..6, keeps
  the enabled ones in order, and fails when none is enabled. The form's
  default value is included.
- **The username and name rules** of the register page (`register.dfy`,
  module `Register`). The character class and lowercasing are shared with the
  claim form (`username.dfy`, module `Username`).
- **The claim form** (`claim_username.dfy`, module `ClaimUsername`). It
  applies its own copy of the username rule and redirects to the register
  page. A lemma follows a claimed name through the redirect and shows that
  the register page accepts it unchanged.

The username pattern is written `/^([a-z\\-]+)$/i`. In a regular-expression
literal `\\` is one escaped backslash, so the pattern admits ASCII letters of
either case, the hyphen and the backslash. The error message says "letters
and hyphens only". The model keeps what the pattern admits, and
`Register.UsernameExamples` shows a username containing a backslash being
accepted.

`Results` (`results.dfy`) holds the `Option` and `Result` types shared by the
modules.

## Model

| member | source | states |
|---|---|---|
| `Calendar.MonthBefore` | src/components/Calendar/index.tsx:44-47 | going back one month gives a month in 0..11 whose running month index is one less (January wraps to December of the year before) |
| `Calendar.MonthAfter` | src/components/Calendar/index.tsx:49-52 | going forward one month gives a month in 0..11 whose running month index is one more (December wraps to January of the next year) |
| `Calendar.NavigationRoundTrip` | src/components/Calendar/index.tsx:44-52 | next after previous, and previous after next, return to the same year and month |
| `Calendar.CurrentDate.constructor` | src/components/Calendar/index.tsx:40 | the initial state is today's month, on day 1 |
| `Calendar.CurrentDate.HandlePreviousMonth` | src/components/Calendar/index.tsx:44-47 | the state moves one month back and stays on day 1 |
| `Calendar.CurrentDate.HandleNextMonth` | src/components/Calendar/index.tsx:49-52 | the state moves one month forward and stays on day 1 |
| `Calendar.DecimalString` | src/components/Calendar/index.tsx:71 | `String(n)` of a non-negative integer is a non-empty run of decimal digits with no leading zero |
| `Calendar.DecimalRoundTrip` | src/components/Calendar/index.tsx:71 | the digits written for `n` read back as `n` |
| `Calendar.PadStart` | src/components/Calendar/index.tsx:71 | `padStart` gives the requested width or the original length, whichever is larger: the original string at the end, the fill character before it |
| `Calendar.MonthParam` | src/components/Calendar/index.tsx:71 | the month parameter has exactly two digits, reads back as `month + 1`, and starts with '0' for January to September |
| `Calendar.MonthParamRange` | src/components/Calendar/index.tsx:71 | the parameter runs from "01" to "12", and different months give different parameters |
| `Calendar.Reverse` | src/components/Calendar/index.tsx:92-97 | reversing keeps the length and puts element `k` at position `length - 1 - k` |
| `Calendar.PreviousMonthFill` | src/components/Calendar/index.tsx:91-97 | the leading fill has exactly `firstWeekDay` dates: the last days of the previous month in ascending order, the k-th on weekday k |
| `Calendar.MonthDays` | src/components/Calendar/index.tsx:84-89 | the month segment has exactly `daysInMonth` dates, days 1, 2, ... in order, day d on weekday `(firstWeekDay + d - 1) mod 7` |
| `Calendar.NextMonthFill` | src/components/Calendar/index.tsx:99-108 | the trailing fill has exactly `6 - weekday(last day)` dates of the next month numbered 1, 2, ..., the j-th on the weekday after the previous one, ending on a Saturday |
| `Calendar.CalendarDays` | src/components/Calendar/index.tsx:84-120 | the cells are `firstWeekDay` disabled leading cells, then days 1..daysInMonth in order, then `6 - weekday(last day)` disabled trailing cells numbered from 1; the count is a multiple of 7; the cell at position i has weekday i mod 7, so the last cell is a Saturday; a current-month cell is disabled exactly when its day is past, its weekday is blocked or its day number is blocked |
| `Calendar.FlattenWeeksOf` | src/components/Calendar/index.tsx:122-136 | concatenating the weeks gives back the cell list |
| `Calendar.WeeksOfFull` | src/components/Calendar/index.tsx:122-136 | when the cell count is a multiple of 7, there are count/7 weeks, numbered 1, 2, ... without gaps, each holding the next 7 consecutive cells |
| `Calendar.ChunkWeeks` | src/components/Calendar/index.tsx:122-136 | the `reduce` that pushes a week at every index divisible by 7 builds exactly the chunking `WeeksOf` |
| `Calendar.WeeksRunSundayToSaturday` | src/components/Calendar/index.tsx:91-136 | if each cell's weekday follows its position, every week has 7 cells and its k-th cell falls on weekday k, Sunday first |
| `Calendar.CalendarWeeks` | src/components/Calendar/index.tsx:79-139 | while blocked dates are absent the grid is empty; otherwise it is 4 to 6 numbered weeks of 7 cells, Sunday to Saturday, that concatenate back to the cell list |
| `TimeIntervals.EnabledOnly` | src/pages/register/time-intervals/index.page.tsx:32-34 | the filter keeps only enabled entries, each taken from the input; it is empty exactly when no entry is enabled |
| `TimeIntervals.EnabledOnlyCounts` | src/pages/register/time-intervals/index.page.tsx:32-34 | every enabled entry is kept as many times as it occurs, and no disabled entry is kept |
| `TimeIntervals.EnabledOnlyKeepsOrder` | src/pages/register/time-intervals/index.page.tsx:32-34 | the kept entries appear in their original order, as unchanged copies |
| `TimeIntervals.EnabledOnlyAppend` | src/pages/register/time-intervals/index.page.tsx:32-34 | filtering a concatenation is the concatenation of the filtered parts, so each entry is judged on its own |
| `TimeIntervals.FirstOutOfRange` | src/pages/register/time-intervals/index.page.tsx:25 | finds the first entry whose weekday lies outside 0..6, or reports that every weekday is within range |
| `TimeIntervals.ParseIntervals` | src/pages/register/time-intervals/index.page.tsx:21-38 | accepted exactly when the raw array has 7 entries, all weekdays lie in 0..6 and some entry is enabled; the issue is the first one zod raises: the length issue exactly when the array does not have 7 entries, otherwise the first entry whose weekday is out of range, otherwise "select at least one weekday", which is raised exactly when 7 in-range entries are all disabled; on success the result is the enabled entries, between 1 and 7 of them |
| `TimeIntervals.DefaultAccepted` | src/pages/register/time-intervals/index.page.tsx:50-95 | the default form value is accepted and yields exactly Monday to Friday, 08:00 to 18:00 |
| `Username.ToLowerFacts` | src/pages/register/index.page.tsx:23 | lowercasing keeps the length, leaves no capital, equals the input ignoring case and keeps the pattern satisfied |
| `Username.ToLowerOfLowerCase` | src/pages/register/index.page.tsx:23 | a lowercase string is unchanged by lowercasing (the transform is idempotent) |
| `Register.ParseUsername` | src/pages/register/index.page.tsx:17-23 | accepted exactly when the username has at least 3 characters, all ASCII letters, hyphens or backslashes; shorter than 3 is "too short"; otherwise a bad character is the pattern error; the accepted value is the input lowercased, of the same length |
| `Register.RevalidateUsername` | src/pages/register/index.page.tsx:17-23 | validating an accepted (lowercased) username again accepts it and returns it unchanged |
| `Register.UsernameExamples` | src/pages/register/index.page.tsx:20-22 | a backslash passes the pattern, capitals are lowercased, an underscore is refused, two characters are too short |
| `Register.ParseName` | src/pages/register/index.page.tsx:24-26 | the name is accepted exactly when it has at least 3 characters, and is returned unchanged |
| `Register.ParseRegisterForm` | src/pages/register/index.page.tsx:16-27 | the form is accepted exactly when both fields are; otherwise each field's issue is reported exactly when that field fails |
| `Register.PrefilledUsername` | src/pages/register/index.page.tsx:60-64 | the username field is prefilled exactly when the query value is present and non-empty, and then with that value |
| `ClaimUsername.ParseUsername` | src/components/ClaimUsernameForm/index.tsx:11-19 | accepted exactly when the username has at least 3 characters and matches the pattern; the accepted value is lowercase, of the same length, equal to the input ignoring case |
| `ClaimUsername.SameRuleAsRegister` | src/components/ClaimUsernameForm/index.tsx:12-18 | the claim form's username rule gives the same result as the register form's on every input |
| `ClaimUsername.RedirectTarget` | src/components/ClaimUsernameForm/index.tsx:34-38 | the redirect path is "/register?username=" followed by the username, so the register page reads the username back from it |
| `ClaimUsername.ClaimThenRegister` | src/components/ClaimUsernameForm/index.tsx:34-38 | a claimed username reaches the register page's field through the redirect and is accepted there unchanged |

## Left out

- Rendering, React hooks (`useState`, `useMemo`, `useForm`, `useFieldArray`), the month title formatting and date selection are UI plumbing and are not modelled.
- The blocked-dates request (`useQuery`, axios, its query key) is network I/O. Its reply is the `Option<BlockedDates>` input of `Calendar.CalendarWeeks`.
- Calendar.CalendarDays: dayjs date arithmetic is replaced by the inputs `firstWeekDay`, `daysInMonth` and `previousMonthDays`. The model does not derive them from the year and month (leap years, weekday of day 1).
- The wall clock is a parameter. `isPast` stands for `date.endOf('day').isBefore(new Date())`, and today's month is passed to `Calendar.CurrentDate.constructor`.
- src/utils/get-week-days.ts is a locale-formatting foreign call (`Intl.DateTimeFormat`). The calendar passes it `{ short: true }`, which it ignores.
- src/lib/auth/prisma-adapter.ts, src/components/TextInput.tsx and src/@types/next-auth.d.ts are ORM glue, a type cast and type declarations. The availability endpoint is not part of this model.
- TimeIntervals.ParseIntervals: zod collects every issue; the model returns the first one in zod's order (array length, then entries, then the refinement). The page shows only the array-level message (`errors.intervals.root`, src/pages/register/time-intervals/index.page.tsx:171-173), so the length and refinement issues are displayed, while an entry's weekday issue leaves that line empty. The display is not modelled.
- TimeIntervals.ParseIntervals: entries are typed values, so zod's type errors (a non-number weekday, a missing field) and its rejection of `NaN` are not modelled. `weekDay` is a real, so fractional weekdays pass, as they do in zod.
- Register.ParseUsername: lengths count characters, while JavaScript counts UTF-16 code units. They differ only for characters outside the Basic Multilingual Plane, which the pattern rejects anyway (the reported issue can differ).
- Register.ParseName: lengths count characters, not UTF-16 code units, so a name with characters outside the Basic Multilingual Plane can be judged shorter than zod judges it.
- Username.ToLower lowercases only ASCII capitals. The schemas apply it only to strings the pattern admitted, which are all ASCII, so the result is the same as JavaScript's `toLowerCase`.
- Register.UsernameQuery: the router's query parsing is reduced to taking what follows "/register?username=". Percent-decoding, `+` as a space, cutting at `&` or `#`, and a query value that is an array are not modelled. None of `%`, `+`, `&` or `#` is in the admitted alphabet.
- The submit handlers (`handleRegister`'s POST and its error alert, `handleSetTimeIntervals`'s logging) are I/O and are not modelled.

# Personal Health Coach: reply selector, goal toggle and chat state in Dafny

This project models the logic of the chat page of the Personal Health Coach
web application (`src/pages/Index.tsx`). It covers three parts.

- **The reply selector** (`generateAIResponse`). The user's text is lower-cased
  and matched against seven keyword groups in a fixed order: weight loss, muscle
  gain, workout, nutrition, mental health, sleep, injury. The first group with a
  keyword that occurs as a substring decides the canned advice text. Input that
  hits no group gets the general menu text.
- **The goal toggle** (`toggleGoal`). Clicking a health goal removes every
  occurrence of it when it is selected. Otherwise it appends the goal at the end.
- **The conversation state** (`handleSendMessage`). Sending blank input is
  rejected. Otherwise the user's message is appended at once, the input box is
  cleared and the typing indicator is shown. A deferred callback later appends
  the coach's reply and hides the indicator.

Modules:

- `Text` (`text.dfy`) models `toLowerCase`, `includes` and `trim`.
  - `Includes` is the scan. `Contains` is the reference definition of
    "substring", and `IncludesIffContains` proves the two agree.
  - `IsWhiteSpace` is the exact set of characters ECMAScript's `trim` strips.
- `Responder` (`responder.dfy`) holds the source's `if` chain (`Classify`) and
  the verbatim reply texts (`ReplyText`). `Respond` is `generateAIResponse`.
  - `IsFirstHit` is the specification: the reply's group is hit, and no group
    before it is. `ClassifyIsFirstHit` proves that the chain returns a category
    exactly when that category is the first hit.
- `ResponderExamples` (`responder_examples.dfy`) proves particular inputs from
  the general lemmas: the empty input, nonsense, "great", "I can't sleep", a
  question with capitals, and a priority conflict.
- `Goals` (`goals.dfy`) models `toggleGoal` as a function on sequences.
  `RemoveAll` is the `filter` call.
- `Chat` (`chat.dfy`) models the page state as the class `ChatSession`, with
  the fields `messages`, `input` and `isTyping`.
  - `Send` is `handleSendMessage` up to the `setTimeout` call. It returns what
    the callback's closure captured (the untrimmed input and the old message
    count) as a `Pending` record.
  - `Complete` is the callback.

The model follows the code in these points:

- The user's message and the reply are built from the untrimmed input, not the
  trimmed text.
- Message ids are the list length plus one and plus two, computed when the
  message is sent, not a counter.
- `handleSendMessage` itself does not check `isTyping`. Only the page's disabled
  controls (src/pages/Index.tsx:252,256) stop a second send while a reply is
  pending. So `Send` has no such guard, and the id invariant is stated for a
  send followed directly by its own completion.

## Model

| member | source | states |
|---|---|---|
| `Text.LowerChar` | src/pages/Index.tsx:49 | one character of the lower-casing: the result is never an ASCII capital, non-capitals are unchanged, capitals map to the letter 32 code points up |
| `Text.ToLower` | src/pages/Index.tsx:49 | the lower-cased input has the same length and is the character-wise lower-casing of the input |
| `Text.ToLowerIdempotent` | src/pages/Index.tsx:49 | lower-casing an already lower-cased string changes nothing |
| `Text.SameUpToCaseLowersEqually` | src/pages/Index.tsx:49 | strings that differ only in the case of ASCII letters lower-case to the same string |
| `Text.Includes` | src/pages/Index.tsx:52-82 | the `includes` scan; its contract is `IncludesIffContains` |
| `Text.IncludesIffContains` | src/pages/Index.tsx:52-82 | the `includes` scan succeeds exactly when the keyword occurs at some index of the string (empty keyword and empty string included) |
| `Text.LoweringKeepsOccurrence` | src/pages/Index.tsx:49-52 | lower-casing the input keeps every occurrence of a keyword without capitals, so a keyword typed in lower case is always found |
| `Text.MissingCharNotContained` | src/pages/Index.tsx:52-82 | a keyword with a character the string lacks is not a substring of it |
| `Text.IsWhiteSpace` | src/pages/Index.tsx:91 | the characters `trim` strips: ECMAScript WhiteSpace and LineTerminator |
| `Text.TrimStart` | src/pages/Index.tsx:91 | leading trim: the result is a suffix, everything dropped is white space, and the result does not start with white space |
| `Text.TrimEnd` | src/pages/Index.tsx:91 | trailing trim: the result is a prefix, everything dropped is white space, and the result does not end with white space |
| `Text.Trim` | src/pages/Index.tsx:91 | `trim()`: `TrimStart` then `TrimEnd`, whose contracts say what is dropped and kept; `BlankIffAllWhiteSpace` says when the result is empty |
| `Text.IsBlank` | src/pages/Index.tsx:91-94 | the guard `!input.trim()`; its contract is `BlankIffAllWhiteSpace` |
| `Text.BlankIffAllWhiteSpace` | src/pages/Index.tsx:91-94 | `!input.trim()` holds exactly when every character is white space, the empty string included |
| `Responder.Rank` | src/pages/Index.tsx:51-84 | the position of each group in the order the `if` chain tries them; the menu comes after all seven |
| `Responder.Keywords` | src/pages/Index.tsx:52-82 | the keywords each `if` condition tests, verbatim; `MatchesIffHits` ties them to the conditions |
| `Responder.Matches` | src/pages/Index.tsx:52-82 | each `if` condition's `\|\|` chain of `includes` calls, verbatim; its contract is `MatchesIffHits` |
| `Responder.MatchesIffHits` | src/pages/Index.tsx:52-82 | each `if` condition of the selector holds exactly when some keyword of its group occurs in the input |
| `Responder.Classify` | src/pages/Index.tsx:48-88 | the `if` chain; its contract is `ClassifyIsFirstHit`: it returns the first group hit by the lower-cased input, or the menu when none is |
| `Responder.ClassifyIsFirstHit` | src/pages/Index.tsx:48-88 | the selector returns category c exactly when c is hit by the lower-cased input (or is the menu) and no group earlier in the order is hit |
| `Responder.MenuIffNoKeyword` | src/pages/Index.tsx:86-87 | the menu is chosen exactly when no keyword of any group occurs in the lower-cased input |
| `Responder.ReplyText` | src/pages/Index.tsx:53-87 | the eight advice texts, verbatim; `ReplyTextInjective` shows they differ pairwise |
| `Responder.Respond` | src/pages/Index.tsx:48-88 | `generateAIResponse`: the text of the group `Classify` picks; `RespondMenuIffNoKeyword` says when it is the menu, and the `ResponderExamples` lemmas state it on concrete inputs |
| `Responder.ReplyTextInjective` | src/pages/Index.tsx:53-87 | the eight reply texts differ pairwise, so the reply determines the group it was chosen for |
| `Responder.RespondMenuIffNoKeyword` | src/pages/Index.tsx:48-88 | the reply is the menu text exactly when no keyword of any group occurs in the lower-cased input |
| `Responder.HitGroupOrEarlierWins` | src/pages/Index.tsx:51-84 | when a group is hit, the winner is that group or an earlier one, never a later group or the menu |
| `Responder.LoseWeightAlwaysWins` | src/pages/Index.tsx:52-54 | any input containing "lose weight" (after lower-casing) gets the weight-loss text, whatever else it contains |
| `Responder.ClassifyIgnoresCase` | src/pages/Index.tsx:48-49 | inputs that differ only in the case of ASCII letters get the same reply |
| `Responder.ClassifyLowered` | src/pages/Index.tsx:49 | lower-casing the input before asking does not change the reply |
| `ResponderExamples.NotHitWhenNoInitial` | src/pages/Index.tsx:51-84 | a group none of whose keywords starts with a character of the input is not hit |
| `ResponderExamples.EmptyInputGetsMenu` | src/pages/Index.tsx:86-87 | the empty input gets the menu |
| `ResponderExamples.NonsenseGetsMenu` | src/pages/Index.tsx:86-87 | "xyzzy" hits no group and gets the menu |
| `ResponderExamples.GreatGetsNutrition` | src/pages/Index.tsx:67 | matching is by substring: "great" contains "eat" and gets the nutrition text |
| `ResponderExamples.LoseWeightBeatsTired` | src/pages/Index.tsx:52-78 | "tired but want to lose weight" gets the weight-loss text, not the sleep text |
| `ResponderExamples.QuestionGetsWeightLoss` | src/pages/Index.tsx:49-54 | "How can I lose weight?" gets the weight-loss text; its capitals do not hide the keyword |
| `ResponderExamples.RoutineQuestionGetsWorkout` | src/pages/Index.tsx:62-64 | "best workout routine" gets the workout plan |
| `ResponderExamples.CantSleepGetsSleep` | src/pages/Index.tsx:52-78 | "I can't sleep" gets the sleep guide: none of the earlier keywords occurs in it, not even "eat" |
| `ResponderExamples.ShoutedWorkoutSameReply` | src/pages/Index.tsx:49 | "WORKOUT plan" and "workout plan" get the same reply |
| `Goals.RemoveAll` | src/pages/Index.tsx:130 | the filter removes every occurrence of the goal and keeps every other goal with its multiplicity |
| `Goals.RemoveAllAppend` | src/pages/Index.tsx:130 | filtering distributes over concatenation, so kept goals keep their relative order |
| `Goals.RemoveAllAbsent` | src/pages/Index.tsx:130 | filtering out a goal that is not present returns the list unchanged |
| `Goals.ToggleGoal` | src/pages/Index.tsx:127-133 | the goal is selected afterwards exactly when it was not selected before; every other goal keeps its multiplicity; an absent goal is appended at the end after the unchanged list |
| `Goals.ToggleAbsentTwice` | src/pages/Index.tsx:129-131 | toggling an unselected goal twice returns exactly the original list |
| `Goals.ToggleKeepsNoDuplicates` | src/pages/Index.tsx:127-133 | a selection without duplicates stays without duplicates, so toggles from the empty list never select a goal twice |
| `Goals.RemoveAllKeepsNoDuplicates` | src/pages/Index.tsx:130 | filtering keeps a duplicate-free list duplicate-free |
| `Chat.AppendNextId` | src/pages/Index.tsx:96-101 | appending a message whose id is the new length keeps every id equal to its 1-based position |
| `Chat.ChatSession.constructor` | src/pages/Index.tsx:20-29 | the session starts with the greeting alone, with id 1 and not from the user, an empty input and no typing indicator |
| `Chat.ChatSession.SetInput` | src/pages/Index.tsx:248 | typing replaces the input and changes nothing else |
| `Chat.ChatSession.Send` | src/pages/Index.tsx:90-105 | blank input is rejected with no change at all. Otherwise one user message with id old length + 1 and the untrimmed input is appended, the input is cleared, typing is set, and the input and old length are captured. Ids stay equal to positions |
| `Chat.ChatSession.Complete` | src/pages/Index.tsx:107-117 | appends one non-user message with id captured length + 2 and the reply to the captured input, and clears typing; the input box is outside its frame and unchanged. Ids stay equal to positions when nothing came between the send and this step |
| `Chat.ChatSession.Exchange` | src/pages/Index.tsx:90-118 | a non-blank send followed by its completion appends exactly the user message and then the reply, with ids length + 1 and length + 2, and leaves the input empty and no typing indicator; when ids were equal to positions before, they still are |

## Left out

- Rendering, scrolling, refs, styling, icons, and the display data `quickActions` and `healthGoals`: these are presentation only.
- The random delay of 1000-2000 ms before the reply: the callback is the separate step `Complete`, and timing and randomness are not modelled.
- Message timestamps (`new Date()`, `toLocaleTimeString`): these depend on the clock and the locale.
- The BMI display: it uses floating point, `parseFloat` and rounding.
- The kg/lbs and cm/ft selectors and the profile field setters: they only hold what was typed.
- The `toast.error` notice: it is a call into a UI library, modelled only as the `Rejected` outcome of `Send`.
- The Enter-key handler: it only calls `handleSendMessage`, which is `Send`.
- The disabling of the input box and the send button while a reply is pending: this is not a guard in `handleSendMessage`. Without it, two sends before one reply would give two messages the same id. The model states the id invariant only for a send followed by its own completion.
- React's batching of state updates: each of `Send` and `Complete` is one atomic step, and the values the callback's closure captured are passed to `Complete` explicitly.
- Text.ToLower: lower-cases ASCII letters only. JavaScript's `toLowerCase` also maps non-ASCII capitals, and a few of them become ASCII letters (KELVIN SIGN becomes "k"). So an input that hits a keyword in the source only through such a character gets the reply of a later group, or the menu, in the model.

# Portfolio page script: a verified Dafny model

`script.js` drives a one-page portfolio. This project models its four
deterministic parts and proves properties about them:

- **Hero typewriter.** A timer callback `tick` types a phrase one character
  at a time, deletes it again, and moves on to the next of five phrases,
  wrapping around. Its slice end runs eight past the phrase length before
  deleting starts, and `slice` clamps it to the length. So a phrase of
  length `L` is shown whole on its last nine typing ticks and its first ten
  deleting ticks, nineteen ticks in a row. Only then does each tick remove
  one character.
- **Assistant responder.** `answer(q)` lowercases the query. It returns the
  reply of the first row of an intent table that has a key occurring in the
  query. Failing that, it tries three topic rules (python, sql/supabase,
  university/education) and then gives a fixed suggestion. The replies are
  built from a static knowledge base about the page's owner.
- **Chat panel.** The submit handler trims the prompt and ignores a blank
  one. Otherwise it appends the user's message, clears the field and
  schedules the reply 260 ms later. `typingSim` reveals the reply in a new
  assistant message, one more character every tick.
- **Navigation menu.** A toggle button sets its `aria-expanded` attribute and
  the dropdown's `hidden` flag. A click outside the menu closes it, and so
  does a click on a link inside it.

Modules:

- `Wrappers` holds `Option`, which stands for JavaScript's `null`/`undefined`.
- `JsText` holds the JavaScript string operations the script uses:
  - `slice(0, end)`, including a negative `end`;
  - `includes` as plain substring search;
  - `toLowerCase`, on ASCII letters;
  - `trim`, over the ECMAScript white-space and line-terminator characters;
  - `join`.
- `Typewriter`:
  - `Next` is one tick on the closure state `(i, txt, del, char)`; the field
    `char` is called `pos`, since `char` is a Dafny keyword.
  - The class `Typewriter` keeps that state in fields, and its `Tick` method
    is proved to agree with `Next`.
- `Responder`:
  - `KB` is the knowledge base; the intent table is `Intents`.
  - `Decide` chooses which reply to give, and `Text` renders it. `Answer` is
    the two composed.
  - `FirstMatch` is the early-return scan over the table, and `TopicRule` is
    the fallback chain after it.
- `Chat`: the class `ChatPanel` keeps the transcript as a `seq` of messages
  and the prompt field as a string. Its `answer` field is the reply function
  it calls; the constructor sets it to `Responder.Answer`. `RevealFrames`
  specifies what `typingSim` shows.
- `Menu`: the three handlers, written both as functions on `MenuState` and as
  methods of the class `MenuToggle`.

Each timer callback is an explicit method or function:

- `Typewriter.Tick` is one `tick`, and it returns the delay it would schedule.
- `ChatPanel.Deliver` is the 260 ms callback.
- The self-rescheduling reveal is the loop in `ChatPanel.TypingSim`.

Real time is not modelled.

The typing phase of a new phrase does not start from the empty text. After
a phrase change `char` is `-1`, so the next tick evaluates
`target.slice(0, -1)` and shows the new phrase without its last character
for one tick; only the tick after it shows `''`. The model keeps this
behaviour of the code, and `Typewriter.TickAfterPhraseChange` states it.

## Model

| member | source | states |
|---|---|---|
| JsText.SliceEnd | script.js:90 | the end `slice(0, end)` settles on: clamped to the length, counted back from the end when negative, never below 0 |
| JsText.SliceTo | script.js:93 | `s.slice(0, end)` is a prefix of `s` whose length is that clamped end |
| JsText.IncludesPrefix | script.js:223 | `includes` finds every prefix of a string, the string itself included |
| JsText.MissingChar | script.js:223 | a string spelt from a set of letters does not include a key holding a letter outside that set |
| JsText.NothingInEmpty | script.js:223 | the empty query includes no non-empty key |
| JsText.LowerChar | script.js:221 | `toLowerCase` on one character maps `A`-`Z` to `a`-`z`, leaves every other character alone, and never yields an upper-case letter |
| JsText.Lower | script.js:221 | the model's `toLowerCase` lowercases each position and so keeps the length; JavaScript's does not always keep it (see "Left out") |
| JsText.Includes | script.js:223 | `query.includes(k)`: `k` occurs in the query at some position from 0 to `query.length - k.length`; it is the definition the lemmas about matching use |
| JsText.LowerIdempotent | script.js:221 | lowercasing twice is lowercasing once |
| JsText.TrimStart | script.js:242 | leading white space removed: the result is a suffix, everything dropped is white space, and the result starts with a non-white-space character or is empty |
| JsText.TrimEnd | script.js:242 | trailing white space removed: the mirror image of `TrimStart` |
| JsText.Trim | script.js:242 | `trim()` yields a piece of the input with only white space around it, and the piece neither starts nor ends with white space |
| JsText.TrimEmptyIff | script.js:242-243 | `trim()` yields `''` exactly when the input is all white space, which is when the handler ignores it |
| JsText.TrimIdempotent | script.js:242 | trimming a trimmed string changes nothing |
| JsText.Join | script.js:190-193 | `join`: no parts give `''`, one part gives itself, and with more parts the first is followed by the separator |
| JsText.JoinSnoc | script.js:190-193 | appending a part to the list appends the separator and that part to the joined text |
| Responder.Reply | script.js:186-194 | the definition of each intent's `fn`: the template text around the knowledge-base field, with lists joined by `'; '` |
| Responder.Matches | script.js:223 | the definition of `intent.keys.some(k => query.includes(k))`: some key of the intent occurs in the query |
| Responder.FirstMatch | script.js:222-226 | the scan finds nothing exactly when no intent matches the query; when it finds a reply, that reply belongs to an intent that matches |
| Responder.FirstMatchWins | script.js:222-226 | if intent `k` matches and no earlier intent does, the scan returns intent `k`'s reply |
| Responder.TopicRule | script.js:227-237 | after the table, "python" is tried first, then "sql" or "supabase", then "university" or "education"; the suggestion comes exactly when none of the five occurs |
| Responder.Choose | script.js:222-237 | for a lowercased query: an intent's reply exactly when some intent matches, and otherwise what the topic rules give |
| Responder.Decide | script.js:220-237 | the definition of which reply `answer(q)` gives: `Choose` applied to the lowercased query, with a missing query taken as `''` |
| Responder.Text | script.js:228-237 | the definition of each reply's text: an intent's reply is its `fn` over the knowledge base, and the topic and fallback replies are the literal strings of the code |
| Responder.Answer | script.js:220-238 | the definition of `answer(q)`: the text of the reply `Decide` chooses |
| Responder.AnswerIgnoresCase | script.js:221 | a query and its lowercase form get the same reply |
| Responder.AnswerMissing | script.js:220-237 | a `null`/`undefined` query is treated as `''`, and the empty query gets the fixed suggestion |
| Responder.AnswerFirstIntent | script.js:220-226 | intent `k`'s reply is returned whenever the lowercased query matches it and no earlier intent |
| Responder.PythonRule | script.js:228-230 | a lowercase query that matches no intent and contains "python" gets the Python reply |
| Responder.AnswerNoIntent | script.js:226-237 | when no intent matches the lowercased query, the topic rules decide the reply |
| Responder.TopicOnlyWithoutIntent | script.js:222-237 | conversely, a topic reply or the suggestion comes only when no intent matches |
| Responder.MatchesAt | script.js:223 | an intent matches any query holding one of its keys at some position |
| Responder.LowerOfLowercase | script.js:221 | a query without upper-case letters is unchanged by lowercasing |
| Responder.SkillsLettersMiss | script.js:187-189 | no query spelt with the letters of "skills" matches the name, age or grade intent |
| Responder.SkillsExample | script.js:220-226 | "skills" gets the skills reply |
| Responder.PythonLettersMissA | script.js:187-191 | no query spelt with the letters of "python" matches the name through projects intents |
| Responder.PythonLettersMissB | script.js:192-195 | no query spelt with the letters of "python" matches the weakness through help intents |
| Responder.PythonLettersMiss | script.js:186-196 | no query spelt with the letters of "python" matches any intent |
| Responder.PythonExample | script.js:222-230 | "python" matches no intent and gets the Python reply |
| Responder.UnknownLettersMissA | script.js:187-191 | no query spelt with the letters of "xyzzy" matches the name through projects intents |
| Responder.UnknownLettersMissB | script.js:192-195 | no query spelt with the letters of "xyzzy" matches the weakness through help intents |
| Responder.UnknownLettersMiss | script.js:186-196 | no query spelt with the letters of "xyzzy" matches any intent |
| Responder.UnknownExample | script.js:222-237 | "xyzzy" matches nothing and gets the fixed suggestion |
| Responder.LanguageLettersMiss | script.js:187 | no query spelt with the letters of "language" matches the name intent |
| Responder.SubstringInsideWord | script.js:220-226 | keys match as substrings inside other words: "language" holds "age" and gets the age reply |
| Responder.ExplainLettersMissA | script.js:187-191 | no query spelt with the letters of "explain" matches the name through projects intents |
| Responder.ExplainLettersMissB | script.js:192-194 | no query spelt with the letters of "explain" matches the weakness, goal or why intent |
| Responder.ExplainLettersMiss | script.js:187-194 | no query spelt with the letters of "explain" matches any intent before the help intent |
| Responder.SubstringAiInExplain | script.js:220-226 | "explain" holds the key "ai" and gets the help reply |
| Typewriter.Next | script.js:87-95 | one tick: the text shown is a prefix of the phrase read at the start of the tick, and the phrase index stays in range |
| Typewriter.Display | script.js:96 | the element never shows the empty string: it shows `' '` for empty text and the text otherwise |
| Typewriter.Delay | script.js:97-98 | the next tick comes after 60 ms while deleting and 90 ms otherwise |
| Typewriter.StartInv | script.js:85 | the initial state `i = 0, txt = '', del = false, char = 0` is within the bounds |
| Typewriter.NextInv | script.js:87-95 | every tick keeps `0 <= i < words.length`, keeps `char` in `[-1, length + 8]` while typing, and keeps it in `[0, length + 9]` while deleting |
| Typewriter.PhaseChanges | script.js:89-94 | deleting starts only on the typing tick that takes `char` past length + 8. It stops only on the deleting tick that takes `char` below 0. That tick alone changes the phrase, to `(i + 1) % words.length`, leaving `char` at -1; every other tick keeps `i` |
| Typewriter.ShownLength | script.js:88-95 | with `char >= 0` a tick shows `min(char, length)` characters |
| Typewriter.TickAfterPhraseChange | script.js:88-95 | the first tick on a new phrase shows it without its last character (`slice(0, -1)`); the tick after shows `''` |
| Typewriter.Iterate | script.js:98 | any number of ticks keeps the phrase index in range |
| Typewriter.IterateAdd | script.js:98 | `a` ticks followed by `b` ticks are `a + b` ticks |
| Typewriter.TypingRun | script.js:89-91 | while typing, `n` ticks show the phrase up to `char + n - 1`, keep the phrase, and turn deleting on only once `char` has passed the pause |
| Typewriter.DeletingRun | script.js:92-94 | while deleting, `n` ticks show the phrase up to `char - n + 1`; the tick that takes `char` below 0 stops deleting and moves to the next phrase |
| Typewriter.HoldLength | script.js:88-94 | after a phrase change, a phrase of length `L` is shown whole on every tick from `L + 2` to `L + 20`, and tick `L + 21` shows it short of its last character |
| Typewriter.PhraseCycle | script.js:87-99 | a phrase of length `L` takes `2L + 20` ticks from one phrase change to the next, and ends in the same state on the next phrase |
| Typewriter.FirstCycle | script.js:85-100 | from the initial state the first phrase takes `2L + 19` ticks, after which the second phrase starts |
| Typewriter.Typewriter.constructor | script.js:78-85 | the closure starts at `i = 0, txt = '', del = false, char = 0`, within the bounds |
| Typewriter.Typewriter.Tick | script.js:87-98 | `tick` in place: the new state is `Next` of the old one, the bounds still hold, the element shows `Display(txt)`, and the delay is `Delay(del)` |
| Chat.RevealFrames | script.js:211-216 | the reveal shows `text.length + 1` frames, and frame `n` is `text.slice(0, n)` |
| Chat.RevealGrows | script.js:211-216 | the first frame is `''` and the last is `text`, and each frame extends the one before by exactly one character |
| Chat.ChatPanel.constructor | script.js:136-138 | the panel starts with the messages and the field value the page delivers, and takes its replies from `Responder.Answer` |
| Chat.ChatPanel.Type | script.js:242 | typing sets the field and leaves the transcript alone |
| Chat.ChatPanel.AddMessage | script.js:198-204 | exactly one message with the given role and text is appended, and the field is untouched |
| Chat.ChatPanel.Submit | script.js:240-250 | blank once trimmed: transcript and field unchanged, nothing scheduled. Otherwise one user message holding the trimmed text is appended, the field becomes `''`, and the reply to the trimmed text is scheduled |
| Chat.ChatPanel.TypingSim | script.js:206-218 | the frames shown are `RevealFrames(text)`, and the transcript gains exactly one assistant message, which ends holding `text` |
| Chat.ChatPanel.Deliver | script.js:246-249 | the scheduled callback appends one assistant message holding `answer(q)` and reveals it with the frames of `RevealFrames` |
| Chat.ChatPanel.Exchange | script.js:240-249 | a submit followed by its callback: a non-blank input adds the user's trimmed message and then `answer` of it, and a blank one changes nothing |
| Menu.Toggle | script.js:259-263 | the button flips whether the attribute reads `'true'`. It hides the dropdown exactly when it read `'true'`, so the two always agree afterwards |
| Menu.DocumentClick | script.js:266-271 | a click outside the menu while it is shown closes it with `aria-expanded = 'false'`; a click inside, or while hidden, changes nothing |
| Menu.DropdownClick | script.js:274-279 | a click on a link closes the menu with `aria-expanded = 'false'`; a click on anything else in the dropdown changes nothing |
| Menu.ToggleTwice | script.js:259-263 | two button clicks restore a consistent state whose attribute held `'true'` or `'false'` |
| Menu.ToggleOpensOrCloses | script.js:259-263 | a button click opens a menu that was not expanded and closes one that was, and the next click undoes it |
| Menu.HandlersKeepConsistent | script.js:259-279 | all three handlers keep `hidden == !expanded` |
| Menu.OpenThenClickOutside | script.js:259-271 | opening the menu and then clicking outside it closes it |
| Menu.ClosedStaysClosed | script.js:266-279 | a closed menu stays closed under document and dropdown clicks |
| Menu.MenuToggle.constructor | script.js:255-256 | the menu starts with the attribute and flag the page delivers |
| Menu.MenuToggle.ButtonClick | script.js:259-263 | the button's handler in place: the new state is `Toggle` of the old |
| Menu.MenuToggle.OnDocumentClick | script.js:266-271 | the document's handler in place: the new state is `DocumentClick` of the old |
| Menu.MenuToggle.OnDropdownClick | script.js:274-279 | the dropdown's handler in place: the new state is `DropdownClick` of the old |

## Left out

- The particle field (script.js:3-71) is left out. It uses floating-point motion, `Math.random`, canvas drawing and an endless animation-frame loop.
- The scroll-reveal observer and the random blink (script.js:104-129) are left out. They are browser callbacks and random choices.
- Opening and closing the chat panel (script.js:143-151) is left out. This covers `panel.hidden`, the `open` class, `focus()` and the 240 ms hide delay; these are presentation-only side effects.
- The reduced-motion query, the DOM lookups, and the early return when an element is missing are left out. They are reads of the environment.
- `scrollTop` updates (script.js:203, 214) are left out. They only scroll.
- Timers and real time are left out. Each callback is an explicit method call, and `TypingSim` runs one reveal to completion, so no interleaving of a reveal with other events is modelled. Two reveals can interleave when two submits come less than a reveal apart. A submit can also land during a reveal: at 18 ms per tick a reply of about 100 characters takes about 2 s, and the user's message is then appended after the assistant message that is still growing. The code keeps writing to that message's own element; the model's reveal, which rewrites the last transcript entry, would write to the user's message instead, so the model states nothing about that case.
- `addMessage`'s default `who = 'assistant'` (script.js:198) is not modelled: `AddMessage` always takes the role. The script's only call passes `'user'`.
- Event bubbling and `e.target.closest('.menu')` are left out. A dropdown click also reaches the document handler, and the model takes the handlers one at a time, with "inside the menu" and the target's tag as parameters.
- JsText.Lower: lowercases only `A`-`Z` and leaves every other character unchanged, so it keeps the length, while JavaScript's `toLowerCase` applies the full Unicode mapping. Some non-ASCII characters lowercase to ASCII letters, so the model gives a different reply for queries holding them. U+212A KELVIN SIGN lowercases to `k`, so the page answers "S\u212AILLS" with the skills reply while the model gives the suggestion. U+0130 lowercases to `i` followed by U+0307 and so lengthens the string; "A\u0130" then holds the key "ai" and gets the help reply on the page, but not in the model.
- The knowledge base's age, the number 15, is kept as its decimal text `"15"`, which is what the reply template makes of it.
- Typewriter.Typewriter.constructor: the script calls `tick()` once right after initialising. The model leaves that first call to the caller of `Tick`, and the element's content before it is a parameter.

# MKU student assistant: the dialogue engine in Dafny

This project models the dialogue engine of the Mount Kenya University chatbot
widget (`script.js`). The engine is a keyword-driven state machine. Its state
is two globals:

- `currentContext`: null, one of the topics fees, administration, hostels,
  results and general, or any other string read back from storage.
- `responseHistory`: per topic and sub-topic, the index of the canned variant
  served last.

For a message, `generateResponse` picks a reply in five tiers:

1. A return-to-menu keyword returns to the main menu.
2. A gratitude keyword is thanked, and the context is kept.
3. Inside a topic, the first sub-topic whose keywords occur answers with a
   rotated variant. If none occurs, the topic's default text answers.
4. With no topic, the first top-level rule that fires selects a topic.
5. Otherwise the prompt is shown.

`getContextOptions` gives the quick replies for a context and a sub-context.
`handleUserInput` trims the message and handles the two session strings. It
then stores the reply's context and shows the matching quick replies.

The modules are:

- `Strings`: `toLowerCase` (for the characters that lower-case to ASCII
  letters), `includes` and `trim`. It also has a
  scanner proved equal to `includes`, used to settle substring facts about
  literal messages.
- `Dialogue`: the keyword tables, in the source's order, and the routing
  decision `RouteOf`. It also holds the quick replies `ContextOptions`. Both
  are pure functions of the context and the message.
- `Rotation`: `responseHistory` as a map of maps, and one call of
  `getRotatedResponse` as the function `Rotate`. It proves what any sequence
  of calls does to the history.
- `Engine`: class `Chatbot`, whose fields are the two globals. Its methods
  `GetRotatedResponse`, `GenerateResponse` and `HandleUserInput` update those
  fields in place. Each is proved against the pure functions: `Rotate`,
  `Respond` and `ContextOptions`. `Converse` threads the context and the
  history through a whole conversation.
- `Scenarios`: the engine on concrete messages. These show the tier
  overrides, the first-match-wins orderings, and what the quick replies do
  when they are sent back.

Canned texts are represented by where they come from (`Variant(topic, sub,
i)`, `TopicDefault(topic)`, `Overview(topic)`, ...), not by their wording.

### Behaviour of the code worth knowing

- **The rotation never advances.** The comment at script.js:17 says the
  helper rotates responses, and the `(x + 1) % responses.length` branch at
  script.js:23-24 would cycle through the variants. But the guard
  `!responseHistory[context][subContext]` at script.js:20 treats a stored 0
  as unset, and 0 is the only value ever stored. So every call serves
  variant 0. `Rotation.RunServesFirst`, `Rotation.SecondCallRepeats` and
  `Engine.ConverseServesFirstVariant` prove this for any sequence of calls.
  `Rotation.Rotate` keeps the advancing branch exactly as written.
- **The rotation history is never reset.** "Start new conversation"
  (script.js:212-225) clears the saved chat and the context, but not
  `responseHistory`. `Engine.Chatbot.HandleUserInput` states that the
  history is unchanged.
- **Both functions write the context.** `generateResponse` writes
  `currentContext` itself when it returns to the menu (script.js:263) and
  when it detects a topic (script.js:627-663). For its other replies,
  `handleUserInput` copies the reply's context into the global
  (script.js:175-176). For example, a prompt given in an unrecognised
  context sets it to null. `Engine.Chatbot.GenerateResponse` and
  `Engine.Chatbot.HandleUserInput` state both writes.
- **Some keywords never decide a reply.** 'thanks' (script.js:272) only
  fires where 'thank' does. 'recheck' (script.js:519) always contains
  'check', which the access sub-topic tests first (script.js:489).

The keyword tables `ReturnKeywords` (script.js:261-262), `ThanksKeywords`
(script.js:272), `SubTopics` (script.js:280-622) and `TopLevel`
(script.js:625-668) keep the source's keywords and order. The constants are
described by the lemmas in the table below.

## Model

| member | source | states |
|---|---|---|
| Strings.Lower | script.js:258 | the lower-cased message has the same length; each of 'A'..'Z' becomes its lower-case letter (code point plus 32) and KELVIN SIGN becomes 'k'; no capital remains; every other character is kept in place |
| Strings.LowerIdempotent | script.js:258 | lower-casing a lower-cased message changes nothing |
| Strings.Contains | script.js:261 | `includes`: an occurrence of the keyword at some index; the keyword is then no longer than the message, and the empty keyword occurs in every message |
| Strings.AnyIn | script.js:261-262 | a chain of `includes` tests joined by `\|\|`, in order; it holds whenever any keyword of the list occurs |
| Strings.ContainsPart | script.js:272 | a keyword that occurs inside a longer keyword is found wherever the longer one is |
| Strings.Trim | script.js:148 | the trimmed message is a slice of the input with only white space outside it; it is empty exactly when the input is all white space, and otherwise starts and ends with a non-space character |
| Strings.AnyInIff | script.js:261-262 | a chain of `includes` tests joined by `\|\|` holds exactly when some keyword of the list occurs in the message |
| Strings.ContainsIsScan | script.js:261 | the left-to-right scanner used on literal messages decides `includes` exactly |
| Dialogue.FirstFiring | script.js:280-340 | the rule chosen is the first one that fires: no earlier rule fires, and the chosen one does unless none fires |
| Dialogue.SubTopics | script.js:279-622 | exactly the five topics have a sub-topic table; each has four sub-topics matched on keywords alone, with a non-empty keyword list and no empty keyword, so no sub-topic fires on every message |
| Dialogue.RouteOf | script.js:257-675 | the branch `generateResponse` takes: sub-topic answers and topic defaults only inside a topic, the sub-topic being one of that topic's own; topic detection only outside a topic, always selecting a topic |
| Dialogue.ReplyFor | script.js:265-268 | the returned object: only a sub-topic answer carries a sub-context and a variant text; its context is null after a menu return (265-268) and after the prompt (671-674), the new topic after a detection (628-631), and the current context otherwise (273-276, 289-293, 342-345) |
| Dialogue.ReturnToMenuFirst | script.js:261-269 | in every context, the reply returns to the main menu exactly when the lower-cased message contains a return keyword; the reply's context is null |
| Dialogue.ThanksKeywordRedundant | script.js:272 | tier 2 fires exactly when the lower-cased message contains 'thank'; the keyword 'thanks' adds nothing |
| Dialogue.ThanksKeepsContext | script.js:272-277 | the gratitude reply is chosen exactly when there is a gratitude keyword and no return keyword; it keeps the current context and sets no sub-context |
| Dialogue.TopicIsSticky | script.js:279-622 | inside a topic, the reply is a menu return, thanks, a sub-topic or the topic default, never a switch to another topic; except for the menu return, the reply's context is the current topic |
| Dialogue.SubTopicIsFirstMatch | script.js:280-340 | a sub-topic answer comes from the first sub-topic of the topic whose keywords occur; every earlier one misses |
| Dialogue.SubTopicChosen | script.js:280-340 | conversely, in a topic, with no return or gratitude keyword, the first sub-topic whose keywords occur answers |
| Dialogue.DefaultWhenNoSubTopic | script.js:341-346 | the topic default answers exactly when no tier-1, tier-2 or sub-topic keyword occurs; it keeps the topic and sets no sub-context |
| Dialogue.DetectionOnlyWithoutTopic | script.js:624-675 | with no recognised topic, no sub-topic or default answer is possible; a detected topic is the first top-level rule that fires, and the overview reply carries it; with no match, the prompt has context null |
| Dialogue.TopicDetected | script.js:625-668 | conversely, with no topic and no tier-1 or tier-2 keyword, the first top-level rule that fires selects its topic |
| Dialogue.ReplyContext | script.js:257-675 | one reply either keeps the context, returns to null, or, only from no topic, enters a topic |
| Dialogue.ExactLabelsRedundant | script.js:625-626 | each top-level rule's exact-label test is covered by its own keywords once the label is lower-cased |
| Dialogue.TopLevelFiresOnKeywords | script.js:625-662 | hence a top-level rule fires exactly when one of its keywords occurs in the lower-cased message |
| Dialogue.RouteIgnoresCase | script.js:258 | two messages equal after lower-casing take the same branch in every context, the exact-label tests included |
| Dialogue.SubTopicAnswerAt | script.js:280-340 | when a topic's sub-topic at position n answers and no other sub-topic of that topic shares its target, one of its keywords occurs and no keyword of an earlier sub-topic does |
| Dialogue.RouteOfLowered | script.js:258 | sending the lower-cased message instead gets the same branch |
| Dialogue.SubTopicTargets | script.js:279-622 | the sub-contexts each topic answers with, in the order they are tested |
| Dialogue.ContextOptions | script.js:755-762 | a null or unrecognised context gets the five topic names |
| Dialogue.ContextOptionsShape | script.js:679-754 | in a topic, a sub-context of that topic gets four follow-ups ending in "Back to <topic>"; any other sub-context, or none, gets a five-entry menu ending in "Back to main" |
| Dialogue.FeesFollowUps | script.js:681-692 | each fees sub-context gets four follow-ups ending in "Back to fees" |
| Dialogue.FeesMenu | script.js:693 | fees without one of its sub-contexts gets the fees menu |
| Dialogue.AdministrationFollowUps | script.js:696-707 | each administration sub-context gets four follow-ups ending in "Back to admin" |
| Dialogue.AdministrationMenu | script.js:708 | administration without one of its sub-contexts gets the administration menu |
| Dialogue.HostelsFollowUps | script.js:711-722 | each hostels sub-context gets four follow-ups ending in "Back to hostels" |
| Dialogue.HostelsMenu | script.js:723 | hostels without one of its sub-contexts gets the hostels menu |
| Dialogue.ResultsFollowUps | script.js:726-737 | each results sub-context gets four follow-ups ending in "Back to results" |
| Dialogue.ResultsMenu | script.js:738 | results without one of its sub-contexts gets the results menu |
| Dialogue.GeneralFollowUps | script.js:741-752 | each general sub-context gets four follow-ups ending in "Back to general" |
| Dialogue.GeneralMenu | script.js:753 | general without one of its sub-contexts gets the general menu |
| Dialogue.SubTopicAnswerOffersBack | script.js:183 | after a sub-topic answer, the quick replies are that sub-topic's four follow-ups ending in "Back to <topic>" |
| Dialogue.TopicNamesAreLabels | script.js:756-762 | the five top-level quick replies are the exact labels of the detection rules, in the same order |
| Rotation.Rotate | script.js:18-27 | the index served is below the number of variants: 0 for an unset or zero entry, else the stored index plus one modulo that number; the entry is stored, and every other entry and key is unchanged |
| Rotation.RotateStaysAtFirst | script.js:20-24 | from a history whose stored indices are all 0, the entry always reads as unset, index 0 is served and the history stays all-zero |
| Rotation.Run | script.js:18-27 | a sequence of calls serves one index per call, each below that call's number of variants |
| Rotation.RunServesFirst | script.js:18-27 | from an empty or all-zero history, every call of any sequence serves index 0 and the history stays all-zero |
| Rotation.SecondCallRepeats | script.js:20-24 | asking the same sub-topic twice from an empty history serves index 0 both times, never 1 |
| Engine.Respond | script.js:257-675 | a sub-topic reply is that sub-topic's variant at the rotated index, keeps the context and carries the sub-context, with the rotated history; any other reply leaves the history unchanged and carries no sub-context and no variant |
| Engine.RespondKeepsAllZero | script.js:18-27 | one reply keeps an all-zero history all-zero |
| Engine.RespondVariantIsFirst | script.js:284-293 | from an all-zero history, a sub-topic reply is the first of its three variants |
| Engine.Converse | script.js:172-176 | its contract states one reply per message; the definition threads each reply's context into the next message's context and the history through; it leaves out `handleUserInput`'s trimming and its two session strings |
| Engine.ConverseServesFirstVariant | script.js:172-176 | over any sequence of `generateResponse` replies from an all-zero history, with the context carried from reply to reply, every sub-topic reply is its first variant and the history stays all-zero |
| Engine.Chatbot.constructor | script.js:11-15 | a page load starts with context null and an empty rotation history |
| Engine.Chatbot.GetRotatedResponse | script.js:18-27 | updates the history exactly as Rotate does and returns `responses` at the index stored; from an all-zero history, it returns the first text and keeps the history all-zero; the context is untouched |
| Engine.Chatbot.GenerateResponse | script.js:257-675 | the reply and the new history are Respond's; the global context becomes null on a menu return and the topic on a detection, and is otherwise unchanged; an all-zero history stays all-zero |
| Engine.Chatbot.HandleUserInput | script.js:147-187 | an empty trimmed message changes nothing; "Continue previous conversation" restores the stored context and offers its options; "Start new conversation" sets the context to null and offers the topic names; neither touches the history; any other message is answered by Respond, its context becomes the current one, and the options are ContextOptions of that context and the reply's sub-context; an all-zero history stays all-zero |
| Scenarios.BackToExamResults | script.js:261-262 | "back to exam results" in administration returns to the menu with context null, although it contains the 'exam' sub-topic keyword |
| Scenarios.BackOptionsReturnToMenu | script.js:261-262 | every "Back to <topic>" and "Back to main" quick reply, sent in any context, returns to the main menu with context null, not to the topic's menu |
| Scenarios.ThankYouInResults | script.js:272-277 | "Thank you" in results is thanked, and the conversation stays in results with no sub-context |
| Scenarios.LatePaymentIsPayment | script.js:282-298 | "late payment" in fees contains a deadline keyword too, but payment is tested first and answers |
| Scenarios.KelvinBankIsPayment | script.js:282-283 | "BAN" followed by KELVIN SIGN lower-cases to "bank" and in fees is answered by payment |
| Scenarios.RecheckIsAccess | script.js:489-520 | "recheck" in results is a remarking keyword but contains 'check', so access, tested first, answers |
| Scenarios.RecheckNeverDecides | script.js:519 | every message the remarking sub-topic answers contains 'remark' or 'appeal': the keyword 'recheck' never decides a reply |
| Scenarios.BookARoomIsApplication | script.js:420-466 | "book a room" in hostels contains a facilities keyword too, but application is tested first and answers |
| Scenarios.SuppExamsIsDefault | script.js:534-552 | the results menu entry "Supp Exams", sent back in results, matches no results sub-topic and gets the results default text with no sub-context |
| Scenarios.ExamFeesIsFees | script.js:625-653 | "exam fees" with no topic fires the results rule too, but fees is tested first and is selected |
| Scenarios.ExamIsResults | script.js:625-653 | "exam" with no topic misses the fees, administration and hostels rules and selects results |
| Scenarios.TopicNameSelectsItsTopic | script.js:625-662 | each of the five top-level quick replies, sent with no topic, selects its own topic |

## Left out

- Rendering: the DOM, the typing indicator, the timers and scrolling are not modelled. The one-second delay before a reply is not modelled either.
- Storage: localStorage and the saved chat log are not modelled. `previousChats`, `appendMessage` and `deleteHistory` are left out. The context that "Continue previous conversation" restores is a parameter of HandleUserInput, `restored`, and the model leaves it free. In the code it is the context that `appendMessage` last stored (script.js:84-86), read back at script.js:200. So when that button's text is sent inside a topic, the code restores that same topic; the model does not tie `restored` to the current context.
- Start-up: `initChatbot`, the welcome message and the continue prompt are left out. The welcome message shows a fixed text and the five topic names, the options of context null (script.js:59-63). The continue prompt shows a fixed text and the two session strings "Continue previous conversation" and "Start new conversation" (script.js:50-56); HandleUserInput models what sending either string does. The prompt's text is also written to the saved chat log (script.js:81-86), which is not modelled.
- The wording of the canned texts is not modelled. A reply's text is identified by its topic, sub-topic and variant index.
- Engine.Chatbot.HandleUserInput: `localStorage.setItem` for the new context is left out. The model keeps only the in-memory global.
- Strings.Lower: lower-cases the ASCII capitals and U+212A KELVIN SIGN (to 'k'), and keeps every other character. `toLowerCase` also lower-cases other non-ASCII capitals, but their lower-case forms are not ASCII and so cannot complete an ASCII keyword. U+0130 becomes 'i' followed by U+0307; no keyword ends in 'i' or contains U+0307, so no branch changes, but the model does not reproduce the longer lower-cased string.
- Engine.Chatbot.GetRotatedResponse: requires a non-empty `responses`. Every caller passes three texts. With an empty array, JavaScript stores 0 and returns `responses[0]`, which is undefined; the model has no undefined text.

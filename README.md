# Senior-care companion: a verified model of its logic

This project is a Dafny model of the parts of a senior-care companion application that hold logic. The application has an Express backend and a React client.

- **Backend mock database** (`MockServer`). In-memory branch of the backend: appointment and medication records created with a length-derived id, listed, merged on update and spliced out on delete by numeric id. It also covers the chat endpoint: the language model's answer when there is one, otherwise a reply from a first-match keyword table.
- **Mental wellness screen** (`Wellness`). A two-question self-check scored as `max(0, 100 - 20 * sum)` and read as a high, medium or low band. There is also a switch between the resource view and the result view.
- **Medication tracker and emergency contacts** (`Medications`, `Contacts`). Lists with add (guarded by required fields), toggle-taken and delete-by-id.
- **AI assistant screen** (`Assistant`). A conversation. The send step appends the user's text; the later reply step appends an answer from a five-entry keyword table.
- **Telemedicine screen** (`Telemedicine`). A scheduling form, call and microphone/camera switches, and the upcoming and past views of the appointment list.
- **Games**:
  - hangman (`Hangman`);
  - number guessing (`NumberGuess`);
  - memory pairs over a card array (`Memory`);
  - trivia quiz (`Trivia`);
  - word scramble (`Scramble`): an in-place swap loop over a character array, repeated until the word changes.
- **Shared helpers** (`Common`, `Text`). An optional value and the delete-by-id filter; ASCII lower-casing, the substring test behind `includes`, and the first-match keyword lookup both chat tables use.

Randomness, `Date.now()` ids, `parseInt` and the language-model call are parameters of the operations that use them. Each timer callback is a separate step method that the caller runs after the handler.

`src/components/MentalHealth.tsx` asks two questions, scores them with the single formula at line 116 and always shows the same four resources.

## Model

| member | source | states |
|---|---|---|
| Text.ToLower | src/components/AIAssistant.tsx:66 | lower-casing keeps the length and maps each character through the ASCII lower-case map |
| Text.ToLowerIdempotent | src/components/AIAssistant.tsx:66 | lower-casing twice is the same as lower-casing once |
| Text.OccursIncludes | server.js:333-335 | a key occurring at some position of the text makes `includes` hold |
| Text.IncludesOccurs | server.js:333-335 | when `includes` holds, the key occurs at some position |
| Text.IncludesIff | server.js:333-335 | `includes` holds exactly when the key occurs at some position of the text |
| Text.FindKey | server.js:333-335 | the found key is included in the text and no earlier key is; nothing is found exactly when no key is included |
| Text.KeywordReply | server.js:337-339 | the reply of the first included key, or the default when no key is included |
| Common.WithoutId | src/components/MedicationTracker.tsx:121 | the filtered list has no entry with the id, only entries from the list, and equals the list when none has the id; the medication and contact delete handlers both use it |
| Common.WithoutIdConcat | src/components/MedicationTracker.tsx:121 | filtering works piece by piece, so order is kept |
| Common.WithoutIdCounts | src/components/EmergencyContacts.tsx:85 | every entry with another id keeps its number of occurrences, and those with the id are gone |
| MockServer.WithId | server.js:104 | the created record has the body's fields plus an id equal to the old length + 1, overriding any id in the body |
| MockServer.FindById | server.js:137-138 | the index of the first record whose id strictly equals the parsed number; none when parsing failed or no record has it |
| MockServer.RemoveAt | server.js:140 | splicing removes the record at the index and keeps the others in order |
| MockServer.Merge | server.js:211 | the update keeps the stored fields the body lacks and takes the body's values for the rest |
| MockServer.DeleteKeepsOthers | server.js:137-142 | a delete by id removes exactly one record, the first match, and keeps every other record |
| MockServer.IdsCanRepeat | server.js:104-140 | create, create, delete id 1, create leaves two records with id 2, and deleting id 2 removes only the older one |
| MockServer.MockDb.constructor | server.js:36-39 | the mock database starts with no appointments and no medications |
| MockServer.MockDb.CreateAppointment | server.js:101-117 | the record with its derived id is appended at the end; medications are unchanged |
| MockServer.MockDb.ListAppointments | server.js:119-131 | returns the stored appointments unchanged |
| MockServer.MockDb.DeleteAppointment | server.js:133-170 | removes the first matching appointment, or reports not found and changes nothing |
| MockServer.MockDb.CreateMedication | server.js:172-189 | the record with its derived id is appended at the end; appointments are unchanged |
| MockServer.MockDb.ListMedications | server.js:191-203 | returns the stored medications unchanged |
| MockServer.MockDb.UpdateMedication | server.js:205-244 | the first matching medication is replaced by the merge and returned; otherwise not found and nothing changes |
| MockServer.MockDb.DeleteMedication | server.js:246-281 | removes the first matching medication, or reports not found and changes nothing |
| MockServer.Chat | server.js:283-348 | rejected exactly when the message is missing or empty; otherwise the model's answer, or the keyword fallback on the lower-cased message when the model fails |
| MockServer.FallbackFirstMatch | server.js:319-335 | without the model, a message containing "medication" gets the medication reply even if it also names another key |
| MockServer.FallbackDefault | server.js:337-339 | without the model, a message with none of the ten keys gets the default reply |
| Wellness.SumBounds | src/components/MentalHealth.tsx:57-78 | with option values 0..3, the answer total is between 0 and 3 per answer |
| Wellness.WellnessScore | src/components/MentalHealth.tsx:116 | the score is never negative and always a multiple of 20, is at most 100 for a non-negative total, and is 0 exactly from a total of 5 |
| Wellness.ScoreRange | src/components/MentalHealth.tsx:116 | the score is in 0..100; it is 100 exactly when the total is 0, which with option values is exactly when every answer is 0; totals of 5 or more give 0, smaller totals give 100 - 20 * total |
| Wellness.ZeroSumAllZero | src/components/MentalHealth.tsx:57-78 | with option values 0..3, a zero total means every answer is 0 |
| Wellness.AllZeroScoresFull | src/components/MentalHealth.tsx:116 | all-zero answers score 100 |
| Wellness.ScoreBand | src/components/MentalHealth.tsx:239-243 | high exactly from 70, medium exactly from 40 below 70, low exactly below 40 |
| Wellness.BandOfTotal | src/components/MentalHealth.tsx:116-243 | over the two questions, totals up to 1 read high, 2 to 3 medium, 4 or more low |
| Wellness.Assessment.constructor | src/components/MentalHealth.tsx:80-83 | the first question, no answers, no score, the resources shown |
| Wellness.SetAnswer | src/components/MentalHealth.tsx:108-110 | writing an answer sets that position, extends the list by one when writing just past its end, and keeps the other answers |
| Wellness.Assessment.AnswerSelect | src/components/MentalHealth.tsx:107-120 | records the answer; before the last question it advances, on the last it sets the score of all answers and shows the resources |
| Wellness.Assessment.Restart | src/components/MentalHealth.tsx:122-126 | clears the answers, the question index and the score, and leaves the view flag alone |
| Wellness.Assessment.ToggleView | src/components/MentalHealth.tsx:128-132 | switches the view only once a score exists |
| Wellness.AnswerBoth | src/components/MentalHealth.tsx:107-120 | answering both questions from the start yields the formula's score, within 0..100 |
| Medications.ToggleTaken | src/components/MedicationTracker.tsx:101-106 | flips `taken` on every medication with the id and leaves the others as they were |
| Medications.ToggleTwice | src/components/MedicationTracker.tsx:101-106 | toggling the same id twice restores the list |
| Medications.Tracker.constructor | src/components/MedicationTracker.tsx:34-68 | three starting medications, none taken, an empty form, the dialog closed |
| Medications.Tracker.Add | src/components/MedicationTracker.tsx:70-99 | adds only when name and time are filled: the form's fields, the given id, not taken, at the end; then the form is reset and the dialog closed |
| Medications.Tracker.MarkTaken | src/components/MedicationTracker.tsx:101-117 | the list becomes its toggle by id; the form is unchanged |
| Medications.Tracker.Delete | src/components/MedicationTracker.tsx:119-129 | the list becomes its filter by id; the form is unchanged |
| Contacts.Screen.constructor | src/components/EmergencyContacts.tsx:25-52 | three starting contacts, an empty form, the dialog closed |
| Contacts.Screen.Add | src/components/EmergencyContacts.tsx:54-81 | adds only when name and phone are filled: the form's fields with the given id, at the end; then the form is reset and the dialog closed |
| Contacts.Screen.Delete | src/components/EmergencyContacts.tsx:83-93 | the list becomes its filter by id; the form is unchanged |
| Contacts.Screen.Call | src/components/EmergencyContacts.tsx:95-101 | the notice names the contact and the number dialled, and nothing changes |
| Assistant.MedicationBeforePain | src/components/AIAssistant.tsx:57-71 | a text containing "medication" gets the medication reply whatever else it contains |
| Assistant.NoKeyDefault | src/components/AIAssistant.tsx:69-71 | a text with none of the five keys gets the default reply |
| Assistant.ReplyTo | src/components/AIAssistant.tsx:56-71 | the default reply exactly when the lower-cased text contains no key; otherwise the reply of the first key, in table order, that the text contains |
| Assistant.Chat.constructor | src/components/AIAssistant.tsx:19-28 | the conversation starts with the greeting alone, empty input, not loading |
| Assistant.Chat.Send | src/components/AIAssistant.tsx:39-53 | a blank input changes nothing; otherwise the untrimmed text is appended as the user's message, the input cleared and loading set |
| Assistant.Chat.Reply | src/components/AIAssistant.tsx:55-82 | appends the keyword reply to the text that was sent and clears loading |
| Assistant.Exchange | src/components/AIAssistant.tsx:39-83 | one exchange gives greeting, user text and keyword reply, in that order |
| Telemedicine.WithStatus | src/components/TelemedicineConsult.tsx:322-370 | the filtered list holds only appointments with that status and is no longer than the list |
| Telemedicine.WithStatusMembers | src/components/TelemedicineConsult.tsx:322-370 | an appointment is in a status view exactly when it is in the list with that status |
| Telemedicine.WithStatusConcat | src/components/TelemedicineConsult.tsx:322-370 | the filter works piece by piece, so list order is kept |
| Telemedicine.ViewsPartition | src/components/TelemedicineConsult.tsx:312-370 | upcoming, past and cancelled views together have exactly as many entries as the list |
| Telemedicine.CancelledInNeitherView | src/components/TelemedicineConsult.tsx:312-370 | a cancelled appointment appears in neither the upcoming nor the past view |
| Telemedicine.Consult.constructor | src/components/TelemedicineConsult.tsx:55-84 | three appointments, two upcoming and one past; an empty form; not in a call; microphone and camera on |
| Telemedicine.Consult.Schedule | src/components/TelemedicineConsult.tsx:86-107 | confirms exactly when doctor, date and time are all given, and then clears the form; the appointment list never changes |
| Telemedicine.Consult.JoinCall | src/components/TelemedicineConsult.tsx:109-118 | enters the call; nothing else changes |
| Telemedicine.Consult.EndCall | src/components/TelemedicineConsult.tsx:120-127 | leaves the call; nothing else changes |
| Telemedicine.Consult.ToggleAudio | src/components/TelemedicineConsult.tsx:129-136 | flips the microphone; nothing else changes |
| Telemedicine.Consult.ToggleVideo | src/components/TelemedicineConsult.tsx:138-145 | flips the camera; nothing else changes |
| Telemedicine.ToggleAudioTwice | src/components/TelemedicineConsult.tsx:129-136 | toggling the microphone twice restores it and leaves the camera and call alone |
| Hangman.CategoryWordsPlayable | src/games/hangmanword.tsx:17-22 | every word of every category is non-empty and has no mask character |
| Hangman.Underscores | src/games/hangmanword.tsx:38 | the initial mask has one '_' per letter |
| Hangman.Reveal | src/games/hangmanword.tsx:53-61 | the new mask shows the letter wherever the word has it and keeps the old mask elsewhere |
| Hangman.Game.constructor | src/games/hangmanword.tsx:35-42 | the word fully masked, nothing guessed, no misses, playing; the game invariant holds |
| Hangman.Game.Guess | src/games/hangmanword.tsx:44-89 | ignored when the game is over or the letter was guessed; otherwise the letter is recorded, revealed if the word has it, or counted as a miss; the game is won exactly when no '_' is left and lost exactly at six misses |
| NumberGuess.Decimal | src/games/numberguessing.tsx:55 | the spelling of a number that is not negative is all digits, reads back as the number, and has no leading zero; a negative number is a minus sign followed by the digits of its magnitude |
| NumberGuess.HintText | src/games/numberguessing.tsx:24-66 | only the game-over text starts with "Game over! The number was ", and what follows reads back as the target |
| NumberGuess.HintTextInjective | src/games/numberguessing.tsx:24-69 | two different hints never show the same text, so each history row tells its hint |
| NumberGuess.Judge | src/games/numberguessing.tsx:46-67 | "got it" exactly for the target; game over exactly for a miss on the seventh attempt; otherwise too low or too high by comparison |
| NumberGuess.Game.constructor | src/games/numberguessing.tsx:18-26 | a target in 1..100, no attempts, empty history, the intro hint |
| NumberGuess.Game.Submit | src/games/numberguessing.tsx:28-72 | accepts exactly a parsed number in 1..100; then one more attempt, the judged hint, one history row, game over on success or on the seventh attempt |
| NumberGuess.SubmitWhileOpen | src/games/numberguessing.tsx:28-72 | while the form is enabled, attempts never pass seven and the seventh ends the game |
| Memory.DeckHasPairs | src/components/MemoryGame.tsx:24-33 | a dealt deck has twelve cards, each picked emoji exactly twice and nothing else |
| Memory.CountMatchedUpdate | src/components/MemoryGame.tsx:76-78 | replacing a card changes the matched count by that card's matched flag |
| Memory.CountMatchedAll | src/components/MemoryGame.tsx:83 | every card counts as matched exactly when every card is matched |
| Memory.MatchPair | src/components/MemoryGame.tsx:75-77 | the two cards become matched; every other flag and every other card is unchanged |
| Memory.UnflipPair | src/components/MemoryGame.tsx:94-96 | the two cards are turned face down; every other flag and every other card is unchanged |
| Memory.FlipKeeps | src/components/MemoryGame.tsx:48-66 | turning a face-down card while fewer than two are turned keeps the game invariant |
| Memory.MatchKeeps | src/components/MemoryGame.tsx:74-81 | keeping a turned pair as matched keeps the invariant with one more match |
| Memory.UnflipKeeps | src/components/MemoryGame.tsx:93-99 | turning a pair back down keeps the invariant with the same matches |
| Memory.CompleteIffAllMatched | src/components/MemoryGame.tsx:83 | matches never exceed half the cards, and reach half exactly when every card is matched |
| Memory.Game.constructor | src/components/MemoryGame.tsx:16-20 | no cards, nothing turned, no matches, no moves, not started |
| Memory.Game.Complete | src/components/MemoryGame.tsx:83 | in a valid game, complete exactly when every card is matched |
| Memory.Game.Initialize | src/components/MemoryGame.tsx:24-46 | twelve face-down unmatched cards in deck order with ids equal to positions; no card turned, no matches, no moves |
| Memory.Game.Click | src/components/MemoryGame.tsx:48-71 | ignored when two cards are turned or the card is face up or matched; otherwise the card is turned and recorded, and the second card of a pair counts a move |
| Memory.Game.Resolve | src/components/MemoryGame.tsx:72-101 | equal contents are marked matched with one more match; a mismatch is turned back down; either way no card stays pending |
| Trivia.BankWellFormed | src/games/triviaquiz.tsx:24-75 | ten questions, each answer a valid option index, no question repeated |
| Trivia.Draw | src/games/triviaquiz.tsx:79-80 | a quiz is the first five questions of the shuffled bank |
| Trivia.DrawDistinct | src/games/triviaquiz.tsx:79-80 | the five drawn questions are distinct and each has a valid answer index |
| Trivia.FinalVerdict | src/games/triviaquiz.tsx:161-167 | perfect exactly at a full score, good exactly when not perfect and at least half, keep practicing otherwise |
| Trivia.VerdictOutOfFive | src/games/triviaquiz.tsx:161-167 | out of five: 5 is perfect, 3 or 4 good, 2 or fewer keep practicing |
| Trivia.Quiz.constructor | src/games/triviaquiz.tsx:17-22 | loading, with no questions, index 0, score 0, no selection, not over |
| Trivia.Quiz.Initialize | src/games/triviaquiz.tsx:77-86 | five distinct bank questions, index 0, score 0, no selection, not over |
| Trivia.Quiz.Select | src/games/triviaquiz.tsx:88-109 | a second selection changes nothing; the first is recorded and scores exactly one point when it is the correct option |
| Trivia.Quiz.Advance | src/games/triviaquiz.tsx:111-118 | the next question with the selection cleared, or game over after the last; the score never exceeds the questions answered |
| Trivia.Quiz.Result | src/games/triviaquiz.tsx:155-167 | the final score is at most the five questions, and the message is the verdict for it |
| Scramble.Swap | src/games/wordscramble.tsx:28 | the two letters are exchanged and the others kept |
| Scramble.SwapPermutes | src/games/wordscramble.tsx:28 | an exchange rearranges the letters |
| Scramble.ShuffledPermutes | src/games/wordscramble.tsx:26-29 | the swap loop only rearranges the letters |
| Scramble.ScrambledPermutes | src/games/wordscramble.tsx:24-32 | a scrambled word is a rearrangement of the word |
| Scramble.ScrambleOnce | src/games/wordscramble.tsx:25-32 | the in-place loop over the character array computes the swaps from the last position down to 1 |
| Scramble.ScrambleWord | src/games/wordscramble.tsx:24-34 | the first pass that differs from the word, with every earlier pass giving the word back; it is a rearrangement of the word; none exactly when every pass returns the word |
| Scramble.SameLettersFixed | src/games/wordscramble.tsx:33 | a word of one repeated letter scrambles to itself under any draws, so the retry would not end |
| Scramble.CanDiffer | src/games/wordscramble.tsx:33 | a word with two different letters has draws that change it, so the retry can end |
| Scramble.WordsHaveTwoLetters | src/games/wordscramble.tsx:17-22 | every listed word has two different letters |
| Scramble.FirstLetter | src/games/wordscramble.tsx:68 | the first letter, or the empty string for an empty word |
| Scramble.Game.constructor | src/games/wordscramble.tsx:10-15 | empty word, scramble and guess; score 0; three hints; not solved |
| Scramble.Game.SelectRandomWord | src/games/wordscramble.tsx:36-42 | the chosen word, shown as the first scramble pass that differs from it; guess and success flag cleared; score and hints kept |
| Scramble.Game.Submit | src/games/wordscramble.tsx:44-64 | correct exactly when guess and word agree ignoring case; then one more point and the success flag; otherwise nothing changes |
| Scramble.Game.UseHint | src/games/wordscramble.tsx:66-83 | with hints left, reveals the first letter and uses one; with none, nothing changes and the count stays 0 |
| Scramble.Game.ResetGame | src/games/wordscramble.tsx:85-89 | score 0, three hints, and the chosen word shown as its first differing scramble pass |

## Left out

- HTTP plumbing in `server.js`: Express routing, CORS, JSON parsing, status codes and the listener. Status codes appear only as the `Outcome` and `ChatResult` cases.
- File persistence of the mock database (`saveMockDb` and the start-up load). The model keeps the arrays in memory only.
- The MongoDB branches of every route. They are unreachable because the mock flag is fixed on.
- MockServer.Chat: the request's `message` field is typed as an optional string. A non-string message is not modelled. In the source, a falsy one (`null`, `0`, `false`) is rejected like a missing message at `server.js:289`. A truthy one such as `5` passes that test; if the model call then fails, `toLowerCase` throws at `server.js:334` and the outer handler answers with status 500 at `server.js:344-347`.
- The language-model request. Its answer is the `upstream` parameter of `MockServer.Chat`, and a failed call is `None`.
- Randomness: the hangman word, the number target, the memory deck, the trivia order, the scrambled word choice and the swap draws are all parameters. `sort(() => Math.random() - 0.5)` is not a well-defined shuffle, so the model only assumes the result is a rearrangement.
- `Date.now()` ids and message timestamps. Ids are parameters, and timestamps are not modelled.
- Timers. Each `setTimeout` body is an explicit step (`Assistant.Chat.Reply`, `Memory.Game.Resolve`, `Trivia.Quiz.Advance`, `Scramble.Game.SelectRandomWord`). Stale reads of state captured by those closures, such as the `matches + 1` in the memory game's match timer, are not reproduced.
- `parseInt` string parsing. Its result is an optional integer, with `None` for NaN.
- JavaScript numbers are unbounded integers in the model. No fractional guesses or scores arise on the modelled paths.
- Text.ToLower: lower-cases ASCII letters only. Full Unicode case mapping is not modelled. This matters wherever `toLowerCase` feeds a comparison: JavaScript lower-cases the Kelvin sign U+212A to "k", so the guess "\u212Aiwi" for "kiwi" is accepted by `src/games/wordscramble.tsx:47` but rejected by `Scramble.Game.Submit`, and the keyword searches of `MockServer.Chat` and `Assistant.ReplyTo` miss keys spelled with such characters.
- Toasts, JSX rendering, styles, the hangman drawing and the trivia progress percentage.
- Handlers the interface disables but that do not check for themselves are modelled without a check. This covers number-guess submission after the game is over and word-scramble submission while `isCorrect` holds. Invariants that depend on the interface guard are stated for the enabled case (`NumberGuess.SubmitWhileOpen`).
- `src/games/whackamole.tsx`, whose behaviour is interval timing with stale closures and `localStorage`.
- `src/context/AuthContext.tsx`, a wrapper around authentication calls outside this code.
- Static or navigation-only files: layout, dashboard, home, social and placeholder screens, and the pharmacy finder's simulated search.
- The mental-wellness resource list. It is shown unconditionally, so there is no recommendation logic to model.

# SCORM package generator — a verified model

This project models the deterministic core of a small web application that turns a
course description (title, description, learning objectives, prompt, content type,
audience, quiz settings, difficulty and visual template) into a SCORM 1.2 package:

- **The two course-page generators.** `src/lib/scormServiceNew.ts` builds a slide deck: four slides and an optional quiz slide. `src/lib/scormService.ts` builds a classic page, which either wraps the AI-generated body or holds its own fallback sections.
- **The package.** Both services build an IMS Content Packaging `imsmanifest.xml`. The archive holds the page, the manifest and three placeholder schema files. The download file name and the manifest identifier are derived from the title.
- **The scripts embedded in the pages.** The classic page's runtime bridge looks for the SCORM API in the window chain (`API_1484_11` for SCORM 2004, `API` for SCORM 1.2). It then opens the session, reports `cmi.core.lesson_status` or `cmi.completion_status` and closes the session. The slide deck's player handles navigation, keyboard shortcuts, quiz scoring and its own two SCORM hooks.
- **The `POST /api/generate` handler** (`src/app/api/generate/route.ts`):
  - its configuration test;
  - its prompt builder for the language model;
  - its own fallback fragment, built in a loop;
  - its mapping of outcomes to 200, 400 and 500 responses.

## How the model is laid out

| file | module | models |
|---|---|---|
| `wrappers.dfy` | `Wrappers` | `Option` and `Result` |
| `text.dfy` | `Text` | JavaScript string behaviour: white space, `trim`, `split`/`join`, `String(n)`, `toUpperCase`, UTF-16 code units |
| `html.dfy` | `Html` | elements, the "is a substring of" relation, and a generic numbered append loop |
| `request.dfy` | `Request` | `SCORMGenerateData`, the validation gate, the shared messages, difficulty wording and quiz length |
| `naming.dfy` | `Naming`, `NamingExamples` | the download file name and the manifest identifier |
| `package.dfy` | `Package` | the manifest datatype and its rendering, and the archive as a `Zip` class holding a `map` |
| `lms.dfy` | `Lms` | the window chain, API objects, `findAPI`, calls that stop at a missing method, and the session an LMS sees |
| `bridge.dfy` | `Bridge` | the classic pages' script as the class `RuntimeBridge` |
| `service_new.dfy` | `SlideDeck`, `ServiceNew`, `ServiceNewPackaging` | the deck and the operations of `scormServiceNew.ts` |
| `slide_player.dfy` | `SlidePlayer` | the deck's script as the class `Player` |
| `service_classic.dfy` | `ClassicPage`, `ServiceClassic` | the classic pages and the operations of `scormService.ts` |
| `generate_route.dfy` | `GenerateRoute` | the route handler |

Some things code does as it runs become parameters here:

- **The AI service.** `generateContentWithAI` becomes an argument `ai: Result<string, string>`. It is either the HTML it returns or the error it throws.
- **The chat-completion call.** It becomes the argument `llm`. It is either the message content or an error.
- **Parsing the request body.** It becomes the argument `parse`. It is an object, `null`, a `SyntaxError` or another failure.
- **Environment variables.** They become the argument `env`.
- **The LMS.** The window chain and its API objects become values. Each answer the LMS gives becomes an argument, such as `reply` in `SetValue`.

Four behaviours of the code are easy to miss:

- **The file name.** `downloadSCORMPackage` replaces every character that is not an ASCII letter or digit by `_`. It does not strip them (`src/lib/scormServiceNew.ts:1039`, `src/lib/scormService.ts:829`).
- **The quiz length.** The two services ask for `min(numberOfQuestions || 3, 5)` questions (`src/lib/scormServiceNew.ts:734`, `src/lib/scormService.ts:671`). The route's fallback loop runs up to `min(numberOfQuestions, 5)` and only when the number is non-zero (`src/app/api/generate/route.ts:57`, `src/app/api/generate/route.ts:64`).
- **The AI body.** `scormServiceNew.ts` calls the AI service and then builds the same deck whatever it answers (`src/lib/scormServiceNew.ts:958-966`).
- **The completion status.** The slide deck's `markComplete` never reports "completed" (`src/lib/scormServiceNew.ts:883-905`). On the classic fallback page the button reaches a second `markComplete`, which does not report it either (`src/lib/scormService.ts:692-712`).

## Model

| member | source | states |
|---|---|---|
| Request.ServiceQuizLength | src/lib/scormServiceNew.ts:734 | `Array.from({length: Math.min(n \|\| 3, 5)})` has at most 5 elements. It has 3 when `n` is 0, `n` when `0 < n <= 5`, 5 when `n >= 5`, and none when `n` is negative |
| Request.DifficultyPhraseDistinct | src/lib/scormServiceNew.ts:21-25 | only `beginner` and `intermediate` get their own wording; every other level, including undeclared values, gets the advanced wording |
| Text.TrimStart | src/lib/scormServiceNew.ts:28 | the leading white space is removed: the result is a suffix, everything dropped is white space, and the result does not start with white space |
| Text.TrimEnd | src/lib/scormServiceNew.ts:28 | the same, for the trailing white space |
| Text.TrimNonEmptyIff | src/lib/scormServiceNew.ts:28 | `obj.trim()` is truthy exactly when the line holds a non-white-space character |
| Text.KeepNonBlankSpec | src/lib/scormServiceNew.ts:28 | `filter(obj => obj.trim())` keeps exactly the non-blank lines, in order (a subsequence), and never adds a line |
| Text.Split | src/lib/scormService.ts:337 | `split('\n')` gives one more piece than there are newlines, and no piece contains a newline |
| Text.JoinSplit | src/lib/scormService.ts:337 | joining the pieces of a split with the separator gives the text back |
| Text.SplitJoin | src/app/api/generate/route.ts:104-106 | splitting a join of separator-free pieces gives the pieces back |
| Text.NatToDecimal | src/lib/scormServiceNew.ts:735-737 | `${i + 1}` is a non-empty string of decimal digits |
| Text.ParseNatToDecimal | src/lib/scormServiceNew.ts:735-737 | reading back the decimal text of `n` gives `n` |
| Text.NatToDecimalInjective | src/lib/scormServiceNew.ts:868 | different numbers have different decimal texts |
| Text.Utf16Char | src/lib/scormServiceNew.ts:1039 | a basic-plane character is one code unit; every other character is a surrogate pair |
| Text.Utf16Append | src/lib/scormServiceNew.ts:1039 | the UTF-16 encoding of a concatenation is the concatenation of the encodings |
| Text.Utf16Bmp | src/lib/scormServiceNew.ts:1039 | a basic-plane string has one code unit per character, equal to its code point |
| Naming.SanitizeUnitsSafe | src/lib/scormServiceNew.ts:1039 | after `replace(/[^a-zA-Z0-9]/g, '_')`, only `[A-Za-z0-9_]` is left |
| Naming.SanitizeUnitsIdempotent | src/lib/scormServiceNew.ts:1039 | sanitising twice is the same as sanitising once |
| Naming.SanitizeUnitsKeepsAlnum | src/lib/scormServiceNew.ts:1039 | a title of ASCII letters and digits is kept unchanged |
| Naming.FileNameShape | src/lib/scormServiceNew.ts:1039 | the file name is the sanitised title, code unit for code unit at the same length, followed by `_SCORM.zip` |
| Naming.SanitizeBmp | src/lib/scormService.ts:829 | character by character: same length, ASCII letters and digits kept, all else `_` |
| Naming.FileNameOfBmp | src/lib/scormService.ts:829 | for a basic-plane title the per-code-unit sanitiser equals the per-character one |
| Naming.ManifestIdentifierShape | src/lib/scormServiceNew.ts:988 | the identifier is `com.scormai.` followed by the title at the same length. No white space is left, and every other character stays in place |
| Naming.SpacesToUnderscoresKeeps | src/lib/scormService.ts:766 | a title without white space is kept unchanged |
| Naming.SpacesToUnderscoresOnCodeUnits | src/lib/scormService.ts:766 | replacing white space per character and per UTF-16 code unit agree (all white space is in the basic plane) |
| NamingExamples.FileNameExample | src/lib/scormServiceNew.ts:1039 | `Intro: Algebra!` is saved as `Intro__Algebra__SCORM.zip` |
| NamingExamples.FileNameAstralExample | src/lib/scormService.ts:829 | a character outside the basic plane becomes two underscores |
| NamingExamples.ManifestIdentifierExample | src/lib/scormService.ts:766 | `Photosynthesis` gives `com.scormai.Photosynthesis` |
| Package.RenderStartsWithIdentifier | src/lib/scormServiceNew.ts:987-988 | the manifest text opens with the XML declaration and the root element's `identifier` attribute |
| Package.Zip.File | src/lib/scormServiceNew.ts:984 | `zip.file(name, text)` adds the member or replaces its text, and changes nothing else |
| Package.FillArchive | src/lib/scormServiceNew.ts:984-1020 | the five `zip.file` calls, in order, with the page, the manifest and the placeholder text |
| Package.ArchiveContents | src/lib/scormServiceNew.ts:984-1020 | the members are exactly the five distinct names `index.html`, `imsmanifest.xml` and the three `.xsd` files, with the page, the manifest and the placeholder as their text |
| Package.BuildArchive | src/lib/scormService.ts:751-810 | filling a new zip gives exactly that archive |
| ServiceNew.NewManifestFacts | src/lib/scormServiceNew.ts:987-1013 | the manifest is well-formed (default organization declared, every item's resource exists, unique resource identifiers, launch file listed). The launch file is in the archive, the one resource has `href="index.html"`, and the one item `item1` → `resource1` has mastery score 80 |
| ServiceClassic.ClassicManifestFacts | src/lib/scormService.ts:765-803 | the same well-formedness. The one item is `item_1` → `resource_1`, visible and without a mastery score, and the LOM block holds the title and description |
| ServiceNew.GenerateScormContent | src/lib/scormServiceNew.ts:950-968 | an empty title or prompt is rejected with the required-fields message; every other request succeeds |
| ServiceNew.AiOutcomeIgnored | src/lib/scormServiceNew.ts:956-967 | for a valid request the content is the fallback deck, whether the AI call succeeds or fails and whatever it returns |
| ServiceNew.PreviewScormContent | src/lib/scormServiceNew.ts:1048-1060 | rejected exactly when invalid, with the preview message; otherwise the generated content |
| ServiceNewPackaging.CreateScormPackage | src/lib/scormServiceNew.ts:971-1028 | fails exactly when invalid, with the package message; otherwise the archive of the deck and this service's manifest |
| ServiceNewPackaging.DownloadScormPackage | src/lib/scormServiceNew.ts:1031-1045 | fails when invalid, with the download message; otherwise the sanitised file name and the package |
| SlideDeck.Subtitle | src/lib/scormServiceNew.ts:592 | `description \|\| 'Profesyonel eğitim içeriği'`: the description when non-empty, the default otherwise |
| SlideDeck.DeckQuizShape | src/lib/scormServiceNew.ts:722-804 | the quiz slide exists iff `includeQuiz`. It has `min(n \|\| 3, 5)` questions numbered from 1, each worth 5 points with the options A, B, C and D. `totalSlides` is 5 with the quiz and 4 without |
| SlideDeck.DeckObjectives | src/lib/scormServiceNew.ts:27-29 | the objectives are the non-blank lines in their order, indexed from 0; the default objective only for an empty field |
| SlideDeck.OnlyNewlinesGiveNoObjectives | src/lib/scormServiceNew.ts:27-29 | a field of only newlines gives no objective at all |
| SlideDeck.DeckAudience | src/lib/scormServiceNew.ts:633-638 | the audience block appears iff a target audience is given, with its text |
| SlideDeck.BadgeWording | src/lib/scormServiceNew.ts:593-594 | the badge is the difficulty wording in capitals |
| SlidePlayer.NavigateStaysInRange | src/lib/scormServiceNew.ts:832-844 | whatever keys are pressed, `currentSlideIndex` stays within `[1, totalSlides]` |
| SlidePlayer.ArrowRightsReach | src/lib/scormServiceNew.ts:932-940 | `n` right arrows move `n` slides forward, stopping at the last |
| SlidePlayer.ArrowLeftsReach | src/lib/scormServiceNew.ts:932-940 | `n` left arrows move `n` slides back, stopping at the first |
| SlidePlayer.NextPrevInverse | src/lib/scormServiceNew.ts:832-844 | a step forward is undone by a step back and the reverse; at the ends the step changes nothing |
| SlidePlayer.QuestionNameInjective | src/lib/scormServiceNew.ts:868 | different questions are stored under different `question${n}` keys |
| SlidePlayer.QuizScoreCountsCorrect | src/lib/scormServiceNew.ts:859-874 | the score is 5 times the number of questions answered with A |
| SlidePlayer.QuizScoreBounds | src/lib/scormServiceNew.ts:859-874 | the score is at most 5 per question, and it is the full score iff every question is answered with A |
| SlidePlayer.AnswersRecorded | src/lib/scormServiceNew.ts:865-874 | every answered question is recorded with the value checked |
| SlidePlayer.AnswersUntouched | src/lib/scormServiceNew.ts:865-874 | a key that names no answered question keeps its old entry, or stays absent |
| SlidePlayer.AnswerKeysFromEmpty | src/lib/scormServiceNew.ts:852-874 | after a reset the recorded keys are exactly the answered questions |
| SlidePlayer.PageApi | src/lib/scormServiceNew.ts:886-896 | the API used is the page's own `API`, or else its parent's |
| SlidePlayer.PageApiLooksTwoWindows | src/lib/scormServiceNew.ts:886-896 | only the `API` globals of the page and its parent matter |
| SlidePlayer.PageApiMissesGrandparent | src/lib/scormServiceNew.ts:886-896 | an API two windows up, which `findAPI` would find, is missed here |
| SlidePlayer.NewPageNeverSetsStatus | src/lib/scormServiceNew.ts:883-926 | the deck's script never gives the LMS a lesson status, whatever the windows hold |
| SlidePlayer.NewPageSession | src/lib/scormServiceNew.ts:883-929 | with a full SCORM 1.2 API, load then the button leave the session terminated without a status, and the success alert is shown |
| SlidePlayer.Player.constructor | src/lib/scormServiceNew.ts:801-806 | on load: slide 1, no answers, `totalSlides` 5 or 4, and the static indicator `1 / 5` |
| SlidePlayer.Player.ShowSlide | src/lib/scormServiceNew.ts:809-830 | the slide is marked active; "previous" is disabled iff index 1 and "next" iff the last; the indicator texts are updated |
| SlidePlayer.Player.NextSlide | src/lib/scormServiceNew.ts:832-837 | moves forward only below `totalSlides`, otherwise changes nothing; keeps the navigator consistent |
| SlidePlayer.Player.PreviousSlide | src/lib/scormServiceNew.ts:839-844 | moves back only above 1, otherwise changes nothing |
| SlidePlayer.Player.KeyDown | src/lib/scormServiceNew.ts:932-940 | right arrow and space go forward, left arrow goes back, and after a move the indicator shows the slide and the total. Any other key, or a move past either end, leaves the page unchanged |
| SlidePlayer.Player.SelectAnswer | src/lib/scormServiceNew.ts:743-758 | checking an option of a question changes only that question's selection |
| SlidePlayer.Player.ResetQuiz | src/lib/scormServiceNew.ts:852-857 | every radio button is unchecked and `quizAnswers` is empty |
| SlidePlayer.Player.SubmitQuiz | src/lib/scormServiceNew.ts:859-880 | the loop records each checked answer and adds 5 points per A; the completion panel is shown |
| SlidePlayer.Player.Attempt | src/lib/scormServiceNew.ts:884-904 | the calls stop at the first missing method, like the `try` does |
| SlidePlayer.Player.MarkComplete | src/lib/scormServiceNew.ts:883-905 | `LMSFinish` then `LMSCommit` on the API selected, then the alert for success, error or no API |
| SlidePlayer.Player.InitializeScorm | src/lib/scormServiceNew.ts:908-929 | `LMSInitialize` on the API selected |
| Lms.ParentIndex | src/lib/scormService.ts:241 | `window.parent` is a distinct window exactly below the top |
| Lms.FrameApi | src/lib/scormService.ts:237-240 | a window offers its SCORM 2004 API in preference to its SCORM 1.2 one |
| Lms.Discover | src/lib/scormService.ts:231-246 | every visit increments the shared counter |
| Lms.DiscoverFindsNearest | src/lib/scormService.ts:231-246 | `findAPI` returns the nearest window's API if reached before the counter passes 7, else null |
| Lms.FindApiOnLoad | src/lib/scormService.ts:525-543 | on a fresh page an API is found iff one of the first seven windows offers one, and then it is the nearest |
| Lms.DiscoverExhausted | src/lib/scormService.ts:233-235 | once the counter is past 7 every search returns null |
| Lms.InvokeAll | src/lib/scormService.ts:692-712 | the calls made before a missing method throws, in order; no throw iff every method exists |
| Lms.Invoke | src/lib/scormService.ts:692-712 | the statement-by-statement loop gives exactly those calls |
| Lms.ReplayStatusWritten | src/lib/scormService.ts:305-315 | a session can only end up with a status that some call wrote |
| Bridge.RuntimeBridge.constructor | src/lib/scormService.ts:228-229 | `API` is null and `findAPITries` is 0 |
| Bridge.RuntimeBridge.FindAPI | src/lib/scormService.ts:231-246 | its result and the new counter are those of `Discover` |
| Bridge.RuntimeBridge.SetValue | src/lib/scormService.ts:279-290 | `LMSSetValue`, else `SetValue`; gives false and makes no call when neither is there |
| Bridge.RuntimeBridge.GetValue | src/lib/scormService.ts:292-303 | `LMSGetValue`, else `GetValue`; gives `""` and makes no call when neither is there |
| Bridge.RuntimeBridge.SetCompletionStatus | src/lib/scormService.ts:305-315 | the status calls of the API found |
| Bridge.RuntimeBridge.InitializeCommunication | src/lib/scormService.ts:248-265 | searches from the own window, opens the session (`LMSInitialize` preferred), then sets "incomplete" |
| Bridge.RuntimeBridge.TerminateCommunication | src/lib/scormService.ts:267-277 | `LMSFinish`, else `Terminate` |
| Bridge.RuntimeBridge.Attempt | src/lib/scormService.ts:692-712 | a null `API` or a missing method throws, the calls before it are made, and the error is caught |
| Bridge.RuntimeBridge.MarkComplete | src/lib/scormService.ts:317-321 | the AI page sets "completed" then terminates. On the fallback page the second script's version only finishes and commits |
| Bridge.RuntimeBridge.InitializeScorm | src/lib/scormService.ts:717-738 | the fallback page's second load listener |
| Bridge.RuntimeBridge.OnLoad | src/lib/scormService.ts:620-738 | `initializeCommunication`, then, on the fallback page, `initializeSCORM` |
| Bridge.RuntimeBridge.OnUnload | src/lib/scormService.ts:324 | `terminateCommunication` |
| Bridge.AiPageCompletes12 | src/lib/scormService.ts:248-324 | with a SCORM 1.2 API, load then the button leave the session terminated and "completed" |
| Bridge.AiPageCompletes2004 | src/lib/scormService.ts:248-324 | the same through the SCORM 2004 method names and `cmi.completion_status` |
| Bridge.FallbackPageNeverCompletes | src/lib/scormService.ts:690-738 | on the fallback page the LMS is never told "completed", whatever API is found |
| Bridge.FallbackPageEndsIncomplete | src/lib/scormService.ts:690-738 | with a full SCORM 1.2 API the fallback page ends terminated and "incomplete", with the success alert |
| Bridge.NoApiNoCalls | src/lib/scormService.ts:248-315 | without an API no call reaches an LMS; the fallback button then shows its error alert |
| Bridge.StatusElementByVersion | src/lib/scormService.ts:305-315 | `cmi.core.lesson_status` through `LMSSetValue` when it exists, else `cmi.completion_status` through `SetValue`, else nothing |
| ClassicPage.ThemeSelection | src/lib/scormService.ts:38-59 | a known template gives its own three classes on both pages; any other value gives the modern classes on the AI page and empty classes on the fallback page |
| ClassicPage.AiTheme | src/lib/scormService.ts:38-59 | the switch with its `default` branch |
| ClassicPage.FallbackTheme | src/lib/scormService.ts:369-385 | the switch without a `default` branch |
| ClassicPage.GenerateProfessionalContent | src/lib/scormService.ts:363-746 | the fallback page: its class switch, the objectives and the fallback sections |
| ClassicPage.AiBodyEmbedded | src/lib/scormService.ts:341-343 | the AI body appears verbatim inside `div.ai-content` in the page |
| ClassicPage.ClassicObjectivesCount | src/lib/scormService.ts:337 | an empty field gives the default objective. Otherwise there is one `<li>` per line (newlines + 1), and the lines join back to the field |
| ClassicPage.NewlinesGiveEmptyObjectives | src/lib/scormService.ts:634 | a field of `n` newlines gives `n + 1` empty objectives |
| ClassicPage.FallbackQuizShape | src/lib/scormService.ts:667-684 | the quiz exists iff `includeQuiz`. It has `min(n \|\| 3, 5)` questions numbered from 1, each with the four options A to D |
| ClassicPage.FallbackSections | src/lib/scormService.ts:639-660 | the level word is `başlangıç`, `orta` or `ileri` by the level. The audience paragraph is there iff an audience is given, and the prompt is shown |
| ServiceClassic.GenerateScormContent | src/lib/scormService.ts:23-359 | the gate sits outside the `try`, so an invalid request is an error; a valid one gives the AI page or the fallback page |
| ServiceClassic.ContentChoice | src/lib/scormService.ts:354-359 | the AI body is in the page when the call succeeds; when it throws, the content is `generateProfessionalContent` |
| ServiceClassic.PreviewScormContent | src/lib/scormService.ts:838-850 | invalid gives the preview message, valid gives the generated content |
| ServiceClassic.CreateScormPackage | src/lib/scormService.ts:749-818 | fails exactly when invalid, with the package message; otherwise the archive of the page and this manifest |
| ServiceClassic.DownloadScormPackage | src/lib/scormService.ts:821-835 | invalid gives the download message; otherwise the sanitised file name and the package |
| GenerateRoute.ConfigurationChecksTwoNames | src/app/api/generate/route.ts:11-13 | for every environment: configured exactly when `OPENAI_API_KEY` is set and non-empty and `OPENAI_KEY` is unset or not the placeholder. The placeholder is tested on `OPENAI_KEY`, not `OPENAI_API_KEY`, so a placeholder key configures the client and `OPENAI_KEY` alone never does |
| Html.AppendLoop | src/app/api/generate/route.ts:64-77 | the `for` loop from 1 to `limit` appends items 1..`limit` in order, and nothing when `limit < 1` |
| GenerateRoute.ProfessionalContent | src/app/api/generate/route.ts:16-83 | the two sections, then, for a quiz, the heading, the questions and the closing tag |
| GenerateRoute.FragmentQuestions | src/app/api/generate/route.ts:64-77 | every question from 1 to the bound appears whole in the fragment |
| GenerateRoute.FragmentQuizShape | src/app/api/generate/route.ts:57-80 | the quiz is appended iff `includeQuiz` and `numberOfQuestions` is non-zero. It has `min(n, 5)` questions, and none when `n` is negative |
| GenerateRoute.IntroMentionsDifficulty | src/app/api/generate/route.ts:27-32 | the introduction states the difficulty phrase |
| GenerateRoute.DetailMentionsDifficulty | src/app/api/generate/route.ts:34-53 | the detail paragraph states it again |
| GenerateRoute.FragmentFields | src/app/api/generate/route.ts:17-31 | the phrase is the request's difficulty phrase; the audience paragraph is there iff an audience is given |
| GenerateRoute.FragmentIgnoresObjectives | src/app/api/generate/route.ts:23-25 | the objectives are computed but do not affect the fragment |
| GenerateRoute.FragmentQuizMatchesClassic | src/app/api/generate/route.ts:57-80 | for `n >= 1` the route asks the same questions as the classic fallback page |
| GenerateRoute.PromptObjectivesLines | src/app/api/generate/route.ts:104-106 | each objective line becomes one line starting with `- `, in order |
| GenerateRoute.PromptParts | src/app/api/generate/route.ts:116-154 | the quiz sentence is there iff a quiz of non-zero size is asked for, with the number as given. The formatted objectives are in the message |
| GenerateRoute.ContentTypePhraseCases | src/app/api/generate/route.ts:124-135 | only the three content types that the switch names get a phrase |
| GenerateRoute.Post | src/app/api/generate/route.ts:85-195 | see the list after this table |
| GenerateRoute.ChosenContentCases | src/app/api/generate/route.ts:101-176 | the model's answer is used only when the client is configured and the answer is a non-empty text; otherwise the fallback is used and an LLM error never surfaces |

`GenerateRoute.Post` maps each parse outcome to a response:

- A `SyntaxError` gives 400 with "Geçersiz JSON formatı.".
- `null` or another failure gives 500.
- An empty title or prompt gives 400 with the required-fields message, and no chat request is sent.
- Otherwise it gives 200 with the chosen content. The chat request is sent iff the client is configured.

## Left out

- I/O outside the core:
  - the React pages, the SCORM Cloud client and the build configuration;
  - `openaiService.ts`, whose fetch call is the `ai` argument here;
  - the OpenAI client constructor.
- JSZip's `generateAsync`, `saveAs` and the ZIP byte format. The archive is a map from member name to text.
- CSS, SVG, comments and exact white space.
  - The rendered pages and the manifest text are structural renderings, not byte-exact copies.
  - The manifest rendering omits the namespace values of the LOM block.
  - Only the parts of the page scripts that are modelled appear in the page text.
- `showTopicDetail`. It only shows an alert.
- The floating-point progress bar of `showSlide`, the time spent (`Date.now`), `preventDefault`, and the console. Alerts are kept as a list of texts.
- Concurrency of the asynchronous calls.
- `numberOfQuestions` values that are `NaN`, fractional, or integers beyond 2^53. Only integers are modelled, and `String(n)` is always an exact decimal. JavaScript loses precision past 2^53 and switches to exponent form from 10^21.
- API globals that hold `null` or another falsy value.
  - In the classic bridge (`Bridge`), `if (win.API)` treats `null` and absent alike, and so does the model.
  - SlidePlayer.PageApi: on the slide deck a `null` `API` global is treated as absent. The page's test `typeof API !== 'undefined'` accepts `null`, so the page would call it, throw and show "İçerik tamamlandı!". The model instead falls through to `window.parent.API` (`src/lib/scormServiceNew.ts:886-903`).
- Request bodies whose fields are not of the declared types.
  - The `Parsed` case of the `parse` argument holds only well-typed objects.
  - A `null` description, which the program prints as `null`, is not modelled: `description` is either a string or absent, and absent prints as `undefined`.
  - A non-string `learningObjectives` would make `.split` throw, and the route would answer 500. The model cannot produce that response.
- Lms.InvokeAll: an API method that is present is assumed to return normally, and its return value is ignored. A present method that throws is not modelled, so the catch blocks of `markComplete` and `initializeSCORM` (`src/lib/scormService.ts:693-710`, `src/lib/scormService.ts:718-732`) are reached only through a missing method or a missing API. `Bridge.AiPageCompletes12` and `Bridge.AiPageCompletes2004` rest on this assumption.
- Bridge.RuntimeBridge.FindAPI: every frame of the window chain is assumed to be same-origin. Reading `win.API` on a cross-origin parent throws a `SecurityError`, and `findAPI` (`src/lib/scormService.ts:231-246`) runs outside any `try`; the model has no such frame.
- SlidePlayer.Player.ShowSlide: requires a slide number between 1 and `totalSlides`. Its callers only pass such numbers, and any other number would make the page's `getElementById` fail.
- SlidePlayer.Player.SubmitQuiz: takes the number of `.quiz-question` elements as the `questionCount` fixed at load.
- GenerateRoute.ChatFor: the temperature 0.7 is stated in tenths, as 7.
- Naming.ManifestIdentifier: works on characters, where JavaScript works on UTF-16 code units. `Naming.SpacesToUnderscoresOnCodeUnits` shows that the two agree.

# ChatAssistant rewrite controller, modelled in Dafny

ChatAssistant is a Swing desktop tool that rewrites a user's text in one of
three styles by sending a prompt to a text-generation API. This project models
its two pieces of pure decision logic and proves properties of them:

- **Style policy** (`strategies.dfy`, module `Strategies`). Each writing style
  (`CreativeStrategy`, `AcademicStrategy`, `ProfessionalStrategy` behind the
  `WritingStrategy` interface) is a constructor of the closed datatype
  `Strategy`. `BuildPrompt` puts the style's fixed instruction, which ends in a
  colon and a blank line, in front of the user's text. `ParsePrompt` is its
  inverse. The proofs show that a prompt determines both the style and the text.
- **Controller decisions in `MainController`**:
  - `rewrite_controller.dfy` covers `handleRewriteRequest`. A null or blank
    text is refused, where blank follows Java's `String.trim()` (module
    `JavaText`). Otherwise the mode string picks the style, falling back to
    Creative. The file also models the success, error and finally callbacks
    and `handleCancelRequest`. The panel flags they drive (spinner, Cancel
    button, Rewrite button) are in module `Panel`.
  - `session_controller.dfy` covers `handleLoadRequest`. It builds the
    history labels `"Session " + (i+1) + ": " + snippet`, using `NatToString`
    from module `Decimal`. It also models the history dialog's
    "Load Selected" and "Delete Selected" callbacks.

Every rewrite handler is a pure function from the panel state before to the
state after. Its result also says the one observable thing the handler does:
a dialog, a call into the rewrite service, or a displayed result. The session
handlers take the stored session list as input: `HandleLoadRequest` maps it
to the dialog's labels, and the load and delete callbacks act on a
`HistoryDialog` holding that list and its rows.

Java strings are modelled as `string`. A Dafny `char` is a Unicode scalar
value, so it cannot hold a surrogate code unit. One `char` stands for one
UTF-16 code unit only for texts made of characters of the Basic Multilingual
Plane, and the properties of `BuildPrompt`, `Trim` and `Snippet` are proved
for such texts only. Java `null` is `Option.None`.

Three consequences of the code that are easy to miss:
- A cancelled request is reported as an error. The service's own test expects
  the error callback to receive an `InterruptedException` after `cancel()`
  (src/test/java/com/jennyyn/recommender/service/APIServiceTest.java:142).
  The error callback (MainController.java:90-97) shows the generic "API
  Error" dialog for it, as for every error other than a rate limit
  (`ErrorDialog`, `Interrupted`).
- The style policy is total. `buildPrompt` concatenates its instruction with
  any string (CreativeStrategy.java:7), the empty text included, and the
  prompt is then the bare instruction.
- A null mode string passes the blank-text guard. Java's `switch` then throws
  `NullPointerException` before the panel changes. This is modelled as the
  `NullModeThrown` effect.

## Model

| member | source | states |
|---|---|---|
| `Strategies.Prefix` | src/main/java/com/jennyyn/recommender/model/AcademicStrategy.java:8 | Each style's instruction starts with the common opening "Rewrite the following text in a ", then has the style's own wording, and ends in ":\n\n". Its length is the sum of the three parts. |
| `Strategies.CreativePrefixLiteral` | src/main/java/com/jennyyn/recommender/model/CreativeStrategy.java:7 | The creative instruction is exactly "Rewrite the following text in a creative, expressive style:\n\n". |
| `Strategies.AcademicPrefixLiteral` | src/main/java/com/jennyyn/recommender/model/AcademicStrategy.java:8 | The academic instruction is exactly "Rewrite the following text in a formal, academic style, using precise language and proper grammar:\n\n". |
| `Strategies.ProfessionalPrefixLiteral` | src/main/java/com/jennyyn/recommender/model/ProfessionalStrategy.java:7 | The professional instruction is exactly "Rewrite the following text in a clear, professional tone suitable for work or business:\n\n". |
| `Strategies.BuildPrompt` | src/main/java/com/jennyyn/recommender/model/CreativeStrategy.java:6-8 | The prompt starts with the style's instruction and ends with the original text verbatim. Its length is the instruction's length plus the text's. For the empty text it is the bare instruction. |
| `Strategies.PrefixesDiffer` | src/main/java/com/jennyyn/recommender/model/ProfessionalStrategy.java:7 | The three instructions differ at a position inside all of them, so none is a prefix of another. |
| `Strategies.TextAfter` | src/main/java/com/jennyyn/recommender/model/CreativeStrategy.java:7 | The text after a style's instruction, when put back behind that instruction, rebuilds the prompt. |
| `Strategies.ParsePrompt` | src/main/java/com/jennyyn/recommender/model/WritingStrategy.java:3-6 | Inverse of the style policy. When it succeeds, building the prompt from its answer gives back the input. When it fails, the input starts with no style's instruction. |
| `Strategies.PromptHasOnlyItsPrefix` | src/main/java/com/jennyyn/recommender/model/ProfessionalStrategy.java:7 | A prompt starts with another style's instruction exactly when that style is the one that built it. |
| `Strategies.ParseBuildPrompt` | src/main/java/com/jennyyn/recommender/model/CreativeStrategy.java:7 | Parsing a built prompt gives back the same style and the same text. |
| `Strategies.BuildPromptInjective` | src/main/java/com/jennyyn/recommender/model/AcademicStrategy.java:8 | Two prompts are equal if and only if they have the same style and the same text. So each style is injective, and two different styles never produce the same prompt for any pair of texts. |
| `JavaText.TrimStart` | src/main/java/com/jennyyn/recommender/controller/MainController.java:44 | The first loop of `trim()` skips only chars <= U+0020. It stops at the end or at the first char above U+0020. |
| `JavaText.TrimEnd` | src/main/java/com/jennyyn/recommender/controller/MainController.java:44 | The second loop of `trim()` drops only chars <= U+0020 from the end and never passes the start. It stops at the start or after a char above U+0020. |
| `JavaText.Trim` | src/main/java/com/jennyyn/recommender/controller/MainController.java:44 | `trim()` returns a contiguous slice. Everything cut away is <= U+0020, and a non-empty result starts and ends with a char above U+0020. The result is empty exactly when every char is <= U+0020. |
| `JavaText.IsBlank` | src/main/java/com/jennyyn/recommender/controller/MainController.java:44 | The guard holds exactly when the text is null or every char is <= U+0020. |
| `JavaText.TrimIdempotent` | src/main/java/com/jennyyn/recommender/controller/MainController.java:44 | Trimming an already trimmed string changes nothing. |
| `Decimal.DigitChar` | src/main/java/com/jennyyn/recommender/controller/MainController.java:124 | A digit value below ten maps to a digit char with that value. |
| `Decimal.NatToString` | src/main/java/com/jennyyn/recommender/controller/MainController.java:124 | The session number is written as a non-empty string of decimal digits, with no leading zero unless the number is zero. |
| `Decimal.ParseNatToString` | src/main/java/com/jennyyn/recommender/controller/MainController.java:124 | Reading the digits back gives the number (round trip). |
| `Decimal.NatToStringInjective` | src/main/java/com/jennyyn/recommender/controller/MainController.java:124 | Different numbers are written differently. |
| `Panel.ShowLoadingState` | src/main/java/com/jennyyn/recommender/view/WritingPanel.java:190-193 | Shows or hides the spinner and the Cancel button together. The Rewrite button is left alone. |
| `Panel.SetRewriteEnabled` | src/main/java/com/jennyyn/recommender/view/WritingPanel.java:195-197 | Changes only the Rewrite button. |
| `RewriteController.SelectStrategy` | src/main/java/com/jennyyn/recommender/controller/MainController.java:55-62 | "Academic" and "Professional" select their styles, matched exactly and case-sensitively. Every other mode string, "Creative" included, selects Creative. |
| `RewriteController.SelectModeName` | src/main/java/com/jennyyn/recommender/controller/MainController.java:56-59 | Each drop-down mode name selects its own style. |
| `RewriteController.HandleRewriteRequest` | src/main/java/com/jennyyn/recommender/controller/MainController.java:42-73 | A null or blank text gets the input-error dialog and leaves the panel unchanged. No service call is made. A non-blank text with a mode calls the service with the original, untrimmed text and the selected style, and the panel becomes busy. A non-blank text with a null mode, and only that, throws and leaves the panel unchanged. |
| `RewriteController.ErrorDialog` | src/main/java/com/jennyyn/recommender/controller/MainController.java:82-97 | A rate-limit error gets the "Rate Limit" warning. Every other error kind gets the "API Error" dialog, and the two cases are exclusive. |
| `RewriteController.NonRateLimitErrorsIndistinguishable` | src/main/java/com/jennyyn/recommender/controller/MainController.java:90-97 | Any two non-rate-limit errors show the same dialog, whatever their messages. |
| `RewriteController.OnComplete` | src/main/java/com/jennyyn/recommender/controller/MainController.java:75-104 | Exactly one of "display result" and "error dialog" happens, chosen by the outcome. The rewritten text is displayed unchanged. The finally callback always leaves the panel idle. |
| `RewriteController.HandleCancelRequest` | src/main/java/com/jennyyn/recommender/controller/MainController.java:147-154 | Cancel always calls `apiService.cancel()`, whether or not a request is in flight, and always returns the panel to idle: spinner and Cancel hidden, Rewrite enabled. |
| `RewriteController.Step` | src/main/java/com/jennyyn/recommender/controller/MainController.java:65-68 | Every handler keeps the panel consistent. A completion or a cancel always leaves it idle. |
| `RewriteController.RunKeepsConsistent` | src/main/java/com/jennyyn/recommender/controller/MainController.java:101-104 | After any sequence of requests, completions and cancels, the spinner and Cancel button are shown together. They are shown exactly when Rewrite is disabled. |
| `RewriteController.RunEndsIdleAfterCompletion` | src/main/java/com/jennyyn/recommender/controller/MainController.java:147-152 | A run whose last event is a completion or a cancel ends idle, whatever came before. This includes a stale completion arriving after a newer request was accepted. |
| `SessionController.Snippet` | src/main/java/com/jennyyn/recommender/controller/MainController.java:122-123 | A text of at most 30 chars is kept as it is. A longer one becomes its first 30 chars followed by "...". A snippet is never longer than 33 chars. |
| `SessionController.SnippetIdempotent` | src/main/java/com/jennyyn/recommender/controller/MainController.java:123 | Taking the snippet of a snippet changes nothing. |
| `SessionController.LeadingDigits` | src/main/java/com/jennyyn/recommender/controller/MainController.java:124 | Counts the digits at the front of a string. The char after them is not a digit. |
| `SessionController.LabelNumber` | src/main/java/com/jennyyn/recommender/controller/MainController.java:124 | Reads the number in a "Session <digits>:" label. When it succeeds, the label starts with "Session ". That it reads back the number each label was written with is `LabelNumberOfLabel`. |
| `SessionController.LeadingDigitsOfNumeral` | src/main/java/com/jennyyn/recommender/controller/MainController.java:124 | In a numeral followed by ':', the leading digits are exactly the numeral. |
| `SessionController.LabelNumberOfLabel` | src/main/java/com/jennyyn/recommender/controller/MainController.java:124 | The label of the session at position i carries the number i+1 (round trip through `LabelNumber`). |
| `SessionController.BuildLabels` | src/main/java/com/jennyyn/recommender/controller/MainController.java:120-125 | The output has one label per session, in order. Label i is "Session " + (i+1) + ": " + the snippet of session i's original text. |
| `SessionController.HandleLoadRequest` | src/main/java/com/jennyyn/recommender/controller/MainController.java:115-127 | With no sessions, no dialog is shown. Otherwise the dialog gets exactly the labels of all sessions, in order. |
| `SessionController.LabelsDistinct` | src/main/java/com/jennyyn/recommender/controller/MainController.java:121-125 | No two labels are equal, even for sessions with the same text. |
| `SessionController.OpenHistory` | src/main/java/com/jennyyn/recommender/view/WritingPanel.java:108-109 | The dialog opens with one row per session, and row i shows session i's label. |
| `SessionController.DeleteSelected` | src/main/java/com/jennyyn/recommender/view/WritingPanel.java:148-156 | Deleting a row removes only that row. The rows before it are unchanged, and the rows after it move up one place with their labels. |
| `SessionController.LoadSelectedAsWritten` | src/main/java/com/jennyyn/recommender/controller/MainController.java:131-136 | "Load Selected" reads position `selected` of the session list read when the dialog opened, and fails past its end. |
| `SessionController.LoadSelected` | src/main/java/com/jennyyn/recommender/controller/MainController.java:131-136 | Corrected load: it loads the stored session whose number appears in the chosen row's label. |
| `SessionController.LoadAsWrittenBeforeDelete` | src/main/java/com/jennyyn/recommender/controller/MainController.java:131-135 | Until a row is deleted, the load as written picks the same session as the corrected load. |
| `SessionController.LoadAsWrittenAfterDelete` | src/main/java/com/jennyyn/recommender/controller/MainController.java:138-142 | After row 0 is deleted, the row now on top reads "Session 2". Loading it as written returns session 1 instead. |

## Findings

| source | as written | input that shows it | evidently intended | confidence | as-written member | corrected member |
|---|---|---|---|---|---|---|
| src/main/java/com/jennyyn/recommender/controller/MainController.java:131-142 | The load callback reads `allSessions.get(selected)` from the list read when the dialog opened. The delete callback removes the row from the dialog's list but not from `allSessions`. | Sessions "first" and "second". "Delete Selected" on row 0, then "Load Selected" on row 0, which now reads "Session 2: second". | Load the session the chosen row shows ("second") | medium; not executed; assumes `FileService.loadSession` returns a list that `deleteSession` does not change (FileService is not part of this model) | `SessionController.LoadAsWrittenAfterDelete` | `SessionController.LoadSelected` |

## Left out

- The rewrite service (`APIService`) is not part of this model: prompt sending, response classification, the worker thread and cancel-by-interrupt. Its outcomes are the `Completion` input to `OnComplete`.
- `APIClient` is left out. It covers reading `config.properties`, the singleton, the HTTP client, the missing-key diagnostic and the default model `"gpt-4o-mini"` (APIClient.java:19). All of that is configuration I/O.
- `FileService` is left out. It is file I/O: `handleSaveRequest`, the load and the on-disk delete behind `deleteSession`. Stored sessions are an input `seq<Session>`.
- Swing is left out: `SwingUtilities.invokeLater`, the event-dispatch thread and `JOptionPane` display. The model keeps only the resulting panel flags and which dialog is chosen. Events are applied in the order they reach the panel.
- The widget layout and listeners of `WritingPanel` are left out. The dialog rows are modelled only as far as the load and delete callbacks need them.
- Texts with characters outside the Basic Multilingual Plane (emoji, for instance) are not modelled. Java stores each such character as two surrogate code units, and a Dafny `char` cannot hold a surrogate. So `BuildPrompt`, `Trim` and `Snippet` are proved only for texts without such characters. A snippet cut that splits a surrogate pair is not modelled either.
- Java `int` overflow of the label number `i + 1` is not modelled. A list holds at most `Integer.MAX_VALUE` elements, so the number cannot overflow.

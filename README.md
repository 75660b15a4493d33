# Mlem session refresh and comment repository, in Dafny

This project models two pieces of the Mlem client for Lemmy instances.

- **The session-expired screen** (`TokenRefreshView`). When an account's token has expired, the user re-enters the password. Accounts with two-factor authentication also enter a one-time code. On success the screen hands back the same account with the new token. The screen's four view states (`initial`, `refreshing`, `success`, `incorrectLogin`), the `showing2FAAlert` flag, the focused field and the two `onSubmit` handlers are modelled in two forms:
  - as a class, `TokenRefreshView`, whose methods update its fields step by step as the Swift view updates its `@State`;
  - as functions on a `Screen` value, which specify those methods.

  Side effects go into an event log, in order: state changes, login requests, haptics, the `refreshedAccount` callback and `dismiss()`. Each login call is replaced by the server's reply, which the caller supplies. Module `RefreshFlow` drives the screen with a sequence of user inputs. A disabled or hidden control ignores input. Each submission, reply included, finishes before the next input. The module proves an invariant of the event log over every such run.
- **The comment repository** (`CommentRepository`). It loads a post's comments and posts new ones. When the API call throws, it reports the error and hands the caller `[]` or `nil`. The API calls and `hierarchicalRepresentation` are function parameters. Error reports are returned beside the value.

Files:
- `wrappers.dfy`: `Option` and `Result`.
- `token_refresh.dfy`: module `TokenRefresh`.
- `refresh_flow.dfy`: module `RefreshFlow`.
- `comment_repository.dfy`: module `CommentRepository`.

Behaviour worth noting:
- A submitted password does not always end in `success`, `incorrectLogin` or `initial`. A two-factor-required reply leaves the state at `refreshing`. The one-time-code field appears and takes focus, but the password field and Logout stay disabled.
- The fail-soft comment methods use fixed report titles and messages, and the model states them exactly.

Quirks of the code that the model keeps:
- `refreshToken(with:)` ignores its `newPassword` argument and sends the `password` field.
- The incorrect-login check comes before the two-factor check, so the incorrect-login branch wins when a reply has both flags.
- The one-time-code path fires no error haptic, never reaches `incorrectLogin`, and returns to `initial` on any failure.

## Model

| member | source | states |
|---|---|---|
| `TokenRefresh.ShouldDisableControls` | Mlem/Views/Shared/TokenRefreshView.swift:235-243 | Controls are disabled exactly in `refreshing` and `success`, and enabled exactly in `initial` and `incorrectLogin`. |
| `TokenRefresh.HeaderFor` | Mlem/Views/Shared/TokenRefreshView.swift:66-84 | The warning image is shown exactly when controls are enabled. The spinner is shown exactly in `refreshing`, the checkmark exactly in `success`. |
| `TokenRefresh.InformationText` | Mlem/Views/Shared/TokenRefreshView.swift:86-106 | "Logging In..." is shown exactly in `refreshing` and "Login Succesful" exactly in `success`. In `initial` and `incorrectLogin` the prompt ends with the account's `username@host`, where a missing host is empty. |
| `TokenRefresh.IncorrectPasswordNotice` | Mlem/Views/Shared/TokenRefreshView.swift:149-155 | "The password you entered was incorrect" is shown if and only if the state is `incorrectLogin`. |
| `TokenRefresh.PromptStatesShareHeaderAndText` | Mlem/Views/Shared/TokenRefreshView.swift:69-99 | `initial` and `incorrectLogin` show the same header and the same text. Only the red notice tells them apart. |
| `TokenRefresh.RefreshedAccount` | Mlem/Views/Shared/TokenRefreshView.swift:217-224 | The account handed back has the original `id`, `instanceLink` and `username`, with the new `accessToken`. Refreshing with the current token gives back the same account. |
| `TokenRefresh.LoginRequestFor` | Mlem/Views/Shared/TokenRefreshView.swift:187-196 | A login request carries the account's instance URL and username, the given password and the given TOTP token. |
| `TokenRefresh.PasswordSubmitted` | Mlem/Views/Shared/TokenRefreshView.swift:120-147 | Password submit appends `PasswordEvents` to the log: first `refreshing`, then a request with the `password` field and no TOTP token. A JWT is followed by `success`, the success haptic, one refreshed account and dismissal; the state becomes `success`. Any failure is followed by exactly one error haptic. Incorrect login (checked first) records and sets `incorrectLogin` and focuses the password. Two-factor required leaves `refreshing`, shows the code field and focuses it. Anything else records and sets `initial`. The text fields are unchanged. |
| `TokenRefresh.OneTimeCodeSubmitted` | Mlem/Views/Shared/TokenRefreshView.swift:198-209 | Code submit appends `OneTimeCodeEvents`: first `refreshing`, then a request with the `password` field and the code as TOTP token. A JWT is followed by the same success events as the password path and the state becomes `success`. Any failure records and sets `initial`. Focus, code field and text fields are unchanged. |
| `TokenRefresh.OneTimeCodeFailsQuietly` | Mlem/Views/Shared/TokenRefreshView.swift:198-209 | The code path never yields `incorrectLogin` and never fires the error haptic. |
| `TokenRefresh.LoggedOut` | Mlem/Views/Shared/TokenRefreshView.swift:177-183 | Logout only dismisses the screen. Nothing else changes. |
| `TokenRefresh.TokenRefreshView.constructor` | Mlem/Views/Shared/TokenRefreshView.swift:29-37 | A new view has empty password and code, state `initial`, no code field, no focus and an empty log. |
| `TokenRefresh.TokenRefreshView.EditPassword` | Mlem/Views/Shared/TokenRefreshView.swift:114 | The password binding replaces the `password` field only. |
| `TokenRefresh.TokenRefreshView.EditTwoFactorCode` | Mlem/Views/Shared/TokenRefreshView.swift:165 | The code binding replaces the `twoFactorCode` field only. |
| `TokenRefresh.TokenRefreshView.UpdateViewState` | Mlem/Views/Shared/TokenRefreshView.swift:229-233 | Sets `viewState` and records the change. |
| `TokenRefresh.TokenRefreshView.RefreshToken` | Mlem/Views/Shared/TokenRefreshView.swift:187-196 | Sends the request built from the `password` field, whatever `newPassword` is, and returns the reply. |
| `TokenRefresh.TokenRefreshView.DidReceive` | Mlem/Views/Shared/TokenRefreshView.swift:211-227 | Fires the success haptic, calls `refreshedAccount` with the refreshed account, then dismisses. |
| `TokenRefresh.TokenRefreshView.SubmitPassword` | Mlem/Views/Shared/TokenRefreshView.swift:120-147 | Its new state is `PasswordSubmitted` of the old state and the reply. |
| `TokenRefresh.TokenRefreshView.SubmitOneTimeCode` | Mlem/Views/Shared/TokenRefreshView.swift:198-209 | Its new state is `OneTimeCodeSubmitted` of the old state and the reply. |
| `TokenRefresh.TokenRefreshView.Logout` | Mlem/Views/Shared/TokenRefreshView.swift:177-183 | Its new state is `LoggedOut` of the old state. |
| `RefreshFlow.Apply` | Mlem/Views/Shared/TokenRefreshView.swift:108-183 | Input to a disabled password field or Logout button, or to the code field while it is hidden, changes nothing. The same holds for any input after dismissal. The event log only grows. |
| `RefreshFlow.Run` | Mlem/Views/Shared/TokenRefreshView.swift:108-183 | A run of inputs only appends to the event log. |
| `RefreshFlow.RunPreservesConsistency` | Mlem/Views/Shared/TokenRefreshView.swift:120-227 | Over runs where each submission, reply included, completes before the next input, the log stays well formed and the view state always equals the last state recorded. In a well-formed log, each request comes right after `refreshing` and is scoped to the account. Each refreshed account keeps its identity and is followed by dismissal, and nothing follows a dismissal. |
| `RefreshFlow.FlowGuarantees` | Mlem/Views/Shared/TokenRefreshView.swift:120-227 | From a fresh screen, for any inputs and replies in runs where each submission completes before the next input, `refreshedAccount` is called at most once. The account it gets has the original id, instance and username. Every login request follows `refreshing` and goes to the account's instance and username. |
| `RefreshFlow.AwaitingOneTimeCode` | Mlem/Views/Shared/TokenRefreshView.swift:137-182 | After a two-factor-required reply the state stays `refreshing` and the code field is focused and usable. The password field and Logout are disabled. |
| `RefreshFlow.CorrectPasswordScenario` | Mlem/Views/Shared/TokenRefreshView.swift:120-126 | Typing a password and getting a JWT logs `refreshing`, the request, `success`, the success haptic, the refreshed account and dismissal, in that order. |
| `RefreshFlow.WrongPasswordScenario` | Mlem/Views/Shared/TokenRefreshView.swift:127-135 | An incorrect-login reply logs `refreshing`, the request, the error haptic and `incorrectLogin`, in that order, and focuses the password field. |
| `CommentRepository.Comments` | Mlem/Repositories/CommentRepository.swift:17-33 | A successful load returns `hierarchicalRepresentation` of the loaded list and reports nothing. A thrown error returns `[]` and reports exactly one error: "Failed to load comments", "Please refresh to try again", with the thrown error as underlying error. |
| `CommentRepository.PostComment` | Mlem/Repositories/CommentRepository.swift:35-63 | `createComment` receives content, language, parent and post unchanged. Success returns a childless `HierarchicalComment` around `commentView` and reports nothing. A thrown error returns nil and reports exactly one error: "Failed to post comment", "Please try again". |
| `CommentRepository.FailedLoadLooksEmpty` | Mlem/Repositories/CommentRepository.swift:22-31 | Assuming `hierarchicalRepresentation` maps an empty list to an empty forest, a failed load and a successful load of an empty list give the caller the same value. Only the error report differs. |

## Left out

- SwiftUI layout and styling: `body`, the grid rows, navigation title, toolbar, `interactiveDismissDisabled`, `withAnimation`. Only what each state shows is modelled.
- RefreshFlow.FlowGuarantees: holds only for runs in which each submission finishes before the next input. The source does not promise that. The one-time-code field is never disabled, so a second `refreshTokenUsing2FA()` can start while the first login is in flight, or during `didReceive`'s 0.5-second sleep. Both tasks could then call `refreshedAccount` and `dismiss()`.
- RefreshFlow.RunPreservesConsistency: holds only for runs of whole submissions, for the same reason. Two overlapping code submissions could log two refreshed accounts, or events after a dismissal.
- Concurrency: `Task {}`, `MainActor.run` and the 0.5-second `Task.sleep` in `didReceive`. Each submission, including its reply, runs as one atomic step. Input that arrives while a request is in flight is not modelled. For example, the one-time-code field is never disabled, so a second code could be submitted before the first reply.
- The network: `APIClient().perform`, `loadComments` and `createComment`. The caller supplies how each call ends. For the login call this is a `LoginReply`. What sets `ApiError.isIncorrectLogin` and `requires2FA` is not part of this model; they are plain flags.
- `URL.host()`: the host is a field of `Url`.
- Haptics: only "success" or "error" fired is recorded. `dismiss()` and the `refreshedAccount` callback are recorded as events, not performed.
- Focus moved by the user tapping a field: only the focus the handlers set is modelled.
- `hierarchicalRepresentation`, the tree-building over the flat comment list, is not in the modelled sources. It is a function parameter. Nothing is assumed about it, except in `FailedLoadLooksEmpty`, which assumes an empty list gives an empty forest.
- Dependency injection (`@Dependency`, `@EnvironmentObject var appState`, which this view does not use) and `TokenRefreshViewPreview`.
- `Mlem/ContentView.swift` and the other context files: tab layout and navigation, no core logic.

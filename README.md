# easy-waitlist: a verified model of the template catalog and its pages

easy-waitlist is a catalog of landing-page templates for waitlists. This
project models the parts of it that carry logic:

- the **template query service** (`getTemplates`, `getTemplateById`) over a
  fixed seed list of three templates (module `Catalog`, record type in
  `TemplateTypes`);
- the **preview renderer**: the registry from template id to a deferred
  loader, and the choice between the lazy path (loading skeleton, then the
  loaded component) and the "coming soon" placeholder (`TemplateRenderer`);
- the **waitlist forms** of the three templates, as state machines over
  `email`, `isSubmitting` and, in elegant-gradient, `error`
  (`ElegantGradient`, `MinimalModern`, `BoldAnimated`), including
  elegant-gradient's email check `/^[^\s@]+@[^\s@]+\.[^\s@]+$/`, modelled by
  a small anchored-regex matcher (`Regex`) and proved equal to a plain
  description of well-formed addresses;
- the **template card** and the **list page**, as pure view derivations
  (`TemplateCard`, `TemplatesPage`).

Each form is a class whose handlers (`OnChange`, `HandleSubmit`,
`CompleteSubmit`) update its fields in the order the component runs its
setters. The asynchronous `handleSubmit` is split at its `await`:
`HandleSubmit` is the part before the one-second timer and `CompleteSubmit`
is the continuation. Each method's postcondition ties the new state to the
pure transition function `Next`. The invariants are proved about `Next` over
whole event sequences. A form carries one field the component does not
declare: `pending`, the number of timers started and not yet fired. It is
there so that a completion can only follow a submission. The handlers do not
guard against re-entry. In the page, the `disabled` attributes guard against
it, and the browser's own validation of the `type="email"` and `required`
inputs runs before a submit event is delivered. The model keeps only the
`disabled` attributes, as predicates (`SubmitDisabled`, `InputDisabled`).
The invariants are proved for the event sequences those attributes let
through (`UiTrace`), not as preconditions of the handlers.

Both queries are functions of a constant list, so repeated calls give equal
results and the catalog is never changed. The web app's own copy of the seed
(`apps/web/src/data/templates.ts:4-45`) holds the same three records as
`Catalog.Seed`.

The model follows the code where a reader might expect more.
`getTemplateById` has no separate invalid-input error: its input schema
`z.string()` accepts the empty string, which is then looked up and not found
(`Catalog.EmptyIdNotFound`). Nor is there a distinct not-found kind: a
missing id throws a plain `Error` carrying the message, which the RPC layer
reports to callers as a generic server error, hence `Failure(string)` in
the model. The renderer has no loader-failure state and no
cancellation of a pending load, so the model has neither.

## Model

| member | source | states |
|---|---|---|
| `Catalog.Find` | packages/api/src/routers/templates.ts:78 | Returns nothing exactly when no entry has the id (exact, case-sensitive equality). Otherwise it returns an entry with that id, and no earlier entry has it. |
| `Catalog.GetTemplateById` | packages/api/src/routers/templates.ts:77-83 | On success, the result is a seed entry whose id equals the input, and it is the first such entry. It fails exactly when no seed id equals the input, and the error is `Template with id "<input>" not found`. |
| `Catalog.GetTemplates` | packages/api/src/routers/templates.ts:73-75 | Returns three entries with pairwise distinct ids, in seed order (minimal-modern, bold-animated, elegant-gradient), and `getTemplateById` finds each of them by its id. |
| `Catalog.GetTemplatesIsSeed` | packages/api/src/routers/templates.ts:30-75 | `getTemplates` returns the seed unchanged: three entries in seed order, ids minimal-modern, bold-animated, elegant-gradient. |
| `Catalog.NotFoundMessageInjective` | packages/api/src/routers/templates.ts:80 | The not-found message identifies the missing id: equal messages come from equal ids. |
| `Catalog.SeedIdsDistinct` | packages/api/src/routers/templates.ts:30-70 | The seed ids are pairwise distinct. |
| `Catalog.FindOwnId` | packages/api/src/routers/templates.ts:78 | In any list with distinct ids, looking up an entry's id returns that entry. |
| `Catalog.GetByOwnId` | packages/api/src/routers/templates.ts:77-83 | For every seed template `t`, `getTemplateById(t.id)` succeeds with `t` itself. |
| `Catalog.EmptyIdNotFound` | packages/api/src/routers/templates.ts:77-81 | The empty id is not rejected specially; it yields the not-found error for `""`. |
| `Catalog.LookupIsCaseSensitive` | packages/api/src/routers/templates.ts:78 | "Minimal-Modern" is not found, while "minimal-modern" finds the first seed entry. |
| `TemplateRenderer.PlaceholderOf` | apps/web/src/components/templates/template-renderer.tsx:49-81 | The placeholder shows the template's name and description. Its tag list is present exactly when the tags are present and non-empty, and then it is all the tags in order. |
| `TemplateRenderer.RegistryKeys` | apps/web/src/components/templates/template-renderer.tsx:12-19 | The registry's key set is exactly {minimal-modern, bold-animated, elegant-gradient}. |
| `TemplateRenderer.RegistryLoadsOwnModule` | apps/web/src/components/templates/template-renderer.tsx:16-18 | Each registered id's loader imports the template module of the same name. |
| `TemplateRenderer.Render` | apps/web/src/components/templates/template-renderer.tsx:25-44 | One or two frames. The first is the loading skeleton exactly when the id is registered. The last is never the skeleton; it is the loaded component of the id's own loader exactly when the id is registered, and otherwise the placeholder for the template; an unregistered id gives the placeholder alone. |
| `TemplateRenderer.RenderSettles` | apps/web/src/components/templates/template-renderer.tsx:25-44 | Every render shows at most two frames and ends in a terminal frame. The skeleton appears only before the last frame, so it is never revisited. |
| `TemplateRenderer.RegisteredGoesLazy` | apps/web/src/components/templates/template-renderer.tsx:27-39 | A registered id shows the loading skeleton, then the component of that id's loader. |
| `TemplateRenderer.UnregisteredGoesToPlaceholder` | apps/web/src/components/templates/template-renderer.tsx:42-43 | An unregistered id shows only the placeholder, with no skeleton frame, built from the template's name, description and tags. |
| `TemplateRenderer.RenderDependsOnId` | apps/web/src/components/templates/template-renderer.tsx:27-30 | The lazy path is taken exactly when the id is registered. Two templates with the same id take the same path, and on the lazy path they show the same frames. |
| `Regex.FullMatch` | apps/web/src/templates/elegant-gradient/index.tsx:21-22 | Anchored matching as `test` does it with `^…$`: a match exists only if every piece consumes at least one character, so the string is at least as long as the pattern. |
| `Regex.OneOrMoreSplit` | apps/web/src/templates/elegant-gradient/index.tsx:21-22 | A full match of `a+ rest` splits the string into a non-empty run of `a` characters and a full match of `rest`. |
| `Regex.OneOrMoreJoin` | apps/web/src/templates/elegant-gradient/index.tsx:21-22 | A non-empty run of `a` characters followed by a full match of `rest` is a full match of `a+ rest`. |
| `ElegantGradient.ValidateEmail` | apps/web/src/templates/elegant-gradient/index.tsx:20-23 | Accepts exactly the well-formed addresses: no whitespace, exactly one `@` with something before it, and after the `@` a `.` that is neither first nor last. |
| `ElegantGradient.ValidIsWellFormed` | apps/web/src/templates/elegant-gradient/index.tsx:20-23 | Every address `validateEmail` accepts is well-formed. |
| `ElegantGradient.WellFormedIsValid` | apps/web/src/templates/elegant-gradient/index.tsx:20-23 | Every well-formed address is accepted by `validateEmail`. |
| `ElegantGradient.DotTailMatches` | apps/web/src/templates/elegant-gradient/index.tsx:21 | A `.` followed by a non-empty run of characters other than whitespace and `@` matches the pattern's tail `\.[^\s@]+$`. |
| `ElegantGradient.MatchAround` | apps/web/src/templates/elegant-gradient/index.tsx:21 | A string with no whitespace, one `@` after a non-empty local part, and a later `.` with characters on both sides matches the whole pattern. |
| `ElegantGradient.EmailPatternExactly` | apps/web/src/templates/elegant-gradient/index.tsx:20-23 | `validateEmail(s)` holds iff `s` has no whitespace, exactly one `@` with something before it, and after the `@` a `.` that is neither first nor last. |
| `ElegantGradient.AcceptsPlainAddress` | apps/web/src/templates/elegant-gradient/index.tsx:21 | "a@b.c" is accepted. |
| `ElegantGradient.RejectsTwoAts` | apps/web/src/templates/elegant-gradient/index.tsx:21 | "a@b@c.d" is rejected. |
| `ElegantGradient.RejectsSpace` | apps/web/src/templates/elegant-gradient/index.tsx:21 | "a @b.c" is rejected. |
| `ElegantGradient.RejectsDomainWithoutDot` | apps/web/src/templates/elegant-gradient/index.tsx:21 | "a@bc" is rejected. |
| `ElegantGradient.Next` | apps/web/src/templates/elegant-gradient/index.tsx:25-44 | `isSubmitting` changes only when a submit sets it or a completion clears it. The email changes only by typing or by the completion clearing it. A submit keeps the email, leaves the error empty exactly when the email is well-formed, and starts a timer exactly then. Typing sets the email to the typed value, clears the error and starts no timer. A completion clears `isSubmitting` and the email, ends the timer and leaves the error alone. |
| `ElegantGradient.SubmitEmpty` | apps/web/src/templates/elegant-gradient/index.tsx:27-32 | Submitting an empty email sets the error "Please enter your email address" and changes nothing else. |
| `ElegantGradient.SubmitMalformed` | apps/web/src/templates/elegant-gradient/index.tsx:34-37 | Submitting a non-empty, malformed email sets the error "Please enter a valid email address" and changes nothing else. |
| `ElegantGradient.SubmitWellFormed` | apps/web/src/templates/elegant-gradient/index.tsx:39-41 | Submitting a well-formed email clears the error, sets `isSubmitting`, starts one timer and keeps the email. |
| `ElegantGradient.SubmitErrorIsFresh` | apps/web/src/templates/elegant-gradient/index.tsx:25-37 | After any submit, the error is empty or one of the two messages. It is empty exactly when the email is well-formed, so no stale error survives. The email is unchanged. |
| `ElegantGradient.CompleteResets` | apps/web/src/templates/elegant-gradient/index.tsx:41-43 | The continuation clears `isSubmitting` and the email and leaves the error alone. |
| `ElegantGradient.TypeSetsEmail` | apps/web/src/templates/elegant-gradient/index.tsx:74-77 | A change sets the email to the input's value and clears the error. |
| `ElegantGradient.LabelsFollowSubmitting` | apps/web/src/templates/elegant-gradient/index.tsx:88-247 | Both buttons read "Joining..." exactly while submitting. Otherwise the hero reads "Join Waitlist" and the closing form "Join Waitlist Now". |
| `ElegantGradient.UiStepKeepsConsistent` | apps/web/src/templates/elegant-gradient/index.tsx:68-94 | Any event the disabled attributes let through keeps the form consistent. Consistent means: submitting exactly while one timer runs, and only with a valid email and no error. |
| `ElegantGradient.UiTraceKeepsConsistent` | apps/web/src/templates/elegant-gradient/index.tsx:68-94 | Every sequence of allowed events from a consistent state can occur, and it ends in a consistent state. |
| `ElegantGradient.FromInitialStaysConsistent` | apps/web/src/templates/elegant-gradient/index.tsx:16-44 | Through the page, a fresh form never submits a malformed email and never runs two timers at once. |
| `ElegantGradient.SignUpRoundTrip` | apps/web/src/templates/elegant-gradient/index.tsx:25-44 | Type a well-formed address, submit, let the timer fire: the form is back in its initial state. |
| `ElegantGradient.HandlerDoesNotGuardReentry` | apps/web/src/templates/elegant-gradient/index.tsx:25-44 | The handler itself does not check `isSubmitting`. Called directly while submitting, it starts a second timer, even though the button is disabled then. |
| `ElegantGradient.Form.constructor` | apps/web/src/templates/elegant-gradient/index.tsx:16-18 | A new form has an empty email, is not submitting, has no error and no timer. |
| `ElegantGradient.Form.OnChange` | apps/web/src/templates/elegant-gradient/index.tsx:74-77 | The new state is `Next(old state, Type(value))`. |
| `ElegantGradient.Form.HandleSubmit` | apps/web/src/templates/elegant-gradient/index.tsx:25-39 | The new state is `Next(old state, Submit)`. |
| `ElegantGradient.Form.CompleteSubmit` | apps/web/src/templates/elegant-gradient/index.tsx:41-43 | The new state is `Next(old state, Complete)`. |
| `MinimalModern.Next` | apps/web/src/templates/minimal-modern/index.tsx:19-29 | `isSubmitting` changes only when a submit sets it or a completion clears it. The email changes only by typing or by the completion clearing it. A submit keeps the email and starts a timer exactly when the email is non-empty. Typing sets the email to the typed value and starts no timer. A completion clears `isSubmitting` and the email and ends the timer. |
| `MinimalModern.SubmitEmpty` | apps/web/src/templates/minimal-modern/index.tsx:21 | Submitting an empty email changes nothing. |
| `MinimalModern.SubmitNonEmpty` | apps/web/src/templates/minimal-modern/index.tsx:19-25 | Submitting any non-empty email sets `isSubmitting` with no format check, starts one timer and keeps the email. |
| `MinimalModern.CompleteResets` | apps/web/src/templates/minimal-modern/index.tsx:26-27 | The continuation clears `isSubmitting` and the email. |
| `MinimalModern.TypeSetsEmail` | apps/web/src/templates/minimal-modern/index.tsx:54 | A change sets the email to the input's value. |
| `MinimalModern.LabelFollowsSubmitting` | apps/web/src/templates/minimal-modern/index.tsx:56-64 | The button reads "Joining..." exactly while submitting, and "Join Waitlist" otherwise. While submitting, both the button and the input are disabled. |
| `MinimalModern.UiStepKeepsConsistent` | apps/web/src/templates/minimal-modern/index.tsx:50-65 | Any allowed event keeps the form consistent: submitting exactly while one timer runs, and never with an empty email. |
| `MinimalModern.UiTraceKeepsConsistent` | apps/web/src/templates/minimal-modern/index.tsx:50-65 | Every sequence of allowed events from a consistent state can occur, and it ends in a consistent state. |
| `MinimalModern.FromInitialStaysConsistent` | apps/web/src/templates/minimal-modern/index.tsx:16-29 | Through the page, a fresh form never submits an empty email and never runs two timers at once. |
| `MinimalModern.SignUpRoundTrip` | apps/web/src/templates/minimal-modern/index.tsx:19-29 | Type a non-empty value, submit, let the timer fire: the form is back in its initial state. |
| `MinimalModern.HandlerDoesNotGuardReentry` | apps/web/src/templates/minimal-modern/index.tsx:19-29 | Called directly while submitting, the handler starts a second timer. |
| `MinimalModern.Form.constructor` | apps/web/src/templates/minimal-modern/index.tsx:16-17 | A new form has an empty email, is not submitting and has no timer. |
| `MinimalModern.Form.OnChange` | apps/web/src/templates/minimal-modern/index.tsx:54 | The new state is `Next(old state, Type(value))`. |
| `MinimalModern.Form.HandleSubmit` | apps/web/src/templates/minimal-modern/index.tsx:19-23 | The new state is `Next(old state, Submit)`. |
| `MinimalModern.Form.CompleteSubmit` | apps/web/src/templates/minimal-modern/index.tsx:25-27 | The new state is `Next(old state, Complete)`. |
| `BoldAnimated.Next` | apps/web/src/templates/bold-animated/index.tsx:28-37 | `isSubmitting` changes only when a submit sets it or a completion clears it. The email changes only by typing or by the completion clearing it. A submit keeps the email and starts a timer exactly when the email is non-empty. Typing sets the email to the typed value and starts no timer. A completion clears `isSubmitting` and the email and ends the timer. |
| `BoldAnimated.SubmitEmpty` | apps/web/src/templates/bold-animated/index.tsx:30 | Submitting an empty email changes nothing. |
| `BoldAnimated.SubmitNonEmpty` | apps/web/src/templates/bold-animated/index.tsx:28-34 | Submitting any non-empty email sets `isSubmitting` with no format check, starts one timer and keeps the email. |
| `BoldAnimated.CompleteResets` | apps/web/src/templates/bold-animated/index.tsx:35-36 | The continuation clears `isSubmitting` and the email. |
| `BoldAnimated.TypeSetsEmail` | apps/web/src/templates/bold-animated/index.tsx:70 | A change in either input sets the shared email to the input's value. |
| `BoldAnimated.LabelsFollowSubmitting` | apps/web/src/templates/bold-animated/index.tsx:75-145 | Both buttons read "Joining..." exactly while submitting. Otherwise the hero reads "Join Waitlist" and the call-to-action "Join Now". While submitting, buttons and inputs are disabled. |
| `BoldAnimated.UiStepKeepsConsistent` | apps/web/src/templates/bold-animated/index.tsx:62-146 | Any allowed event keeps the form consistent: submitting exactly while one timer runs, and never with an empty email. |
| `BoldAnimated.UiTraceKeepsConsistent` | apps/web/src/templates/bold-animated/index.tsx:62-146 | Every sequence of allowed events from a consistent state can occur, and it ends in a consistent state. |
| `BoldAnimated.FromInitialStaysConsistent` | apps/web/src/templates/bold-animated/index.tsx:16-37 | Through either form, a fresh page never submits an empty email and never runs two timers at once. |
| `BoldAnimated.SignUpRoundTrip` | apps/web/src/templates/bold-animated/index.tsx:28-37 | Type a non-empty value, submit, let the timer fire: the form is back in its initial state. |
| `BoldAnimated.HandlerDoesNotGuardReentry` | apps/web/src/templates/bold-animated/index.tsx:28-37 | Called directly while submitting, the handler starts a second timer. |
| `BoldAnimated.SameHandlersAsMinimalModern` | apps/web/src/templates/bold-animated/index.tsx:28-80 | Every handler step, both disabled conditions and the hero label coincide with minimal-modern's. Only the call-to-action label differs when idle. |
| `BoldAnimated.Form.constructor` | apps/web/src/templates/bold-animated/index.tsx:16-17 | A new form has an empty email, is not submitting and has no timer. |
| `BoldAnimated.Form.OnChange` | apps/web/src/templates/bold-animated/index.tsx:134 | The new state is `Next(old state, Type(value))`, for the hero input (line 70) and the call-to-action input alike. |
| `BoldAnimated.Form.HandleSubmit` | apps/web/src/templates/bold-animated/index.tsx:28-32 | The new state is `Next(old state, Submit)`. |
| `BoldAnimated.Form.CompleteSubmit` | apps/web/src/templates/bold-animated/index.tsx:34-36 | The new state is `Next(old state, Complete)`. |
| `TemplateCard.SliceFromStart` | apps/web/src/components/templates/template-card.tsx:33 | `slice(0, n)` returns a prefix of at most `n` elements: all of them when there are at most `n`, else exactly `n`. |
| `TemplateCard.Card` | apps/web/src/components/templates/template-card.tsx:13-53 | The card always shows the name and description. The image is shown exactly when `previewImage` is present and non-empty, with the name as its alt text. The tag block is shown exactly when the tags are present and non-empty, and then holds the first tags in order, at most three, and exactly three when there are at least three. The link is `/templates/` followed by the id. |
| `TemplatesPage.Cards` | apps/web/src/routes/templates.tsx:113-115 | One card per template, in list order. |
| `TemplatesPage.View` | apps/web/src/routes/templates.tsx:65-122 | Three skeletons exactly while loading. A failure notice with `error.message` exactly when there is an error. The empty notice exactly when not loading, no error, and the data is an empty list. The card grid exactly when not loading, no error, and the data is non-empty; it then shows the cards of the data in order. |
| `TemplatesPage.EmptyAndListExclusive` | apps/web/src/routes/templates.tsx:104-111 | The empty notice and the card grid never appear together. Neither appears with the skeletons or the failure notice. |
| `TemplatesPage.LoadingAndFailureTogether` | apps/web/src/routes/templates.tsx:85-102 | The page's conditions do not exclude loading together with an error: given both, the skeletons and the failure notice render together. |
| `TemplatesPage.NoDataShowsNoList` | apps/web/src/routes/templates.tsx:104-111 | Without data, neither the empty notice nor a card grid is shown. |
| `TemplatesPage.SeedCatalogNavigation` | apps/web/src/routes/templates.tsx:111-116 | With the seed loaded, the page shows three cards in seed order. Each card links to `/templates/<id>`. Looking up that id returns exactly that template, and its preview takes the lazy path. |

## Left out

- Markup, styling, animation delays, and the SEO `head` metadata and JSON-LD blocks: they are presentational.
- The bold-animated scroll listener and its parallax offset: a DOM event listener and floating-point arithmetic.
- The one-second `setTimeout` and the `Promise` around it: only the split of `handleSubmit` into `HandleSubmit` and `CompleteSubmit` is modelled. React's batching of setters inside a handler is not modelled separately. Within one handler call, `email` is the value captured by that render, and no setter the handler runs changes it; so running the setters in sequence gives the same final state.
- `React.lazy`, `Suspense` and dynamic `import()`: a loader is an opaque token (`Loader`), and a loaded component is that token.
- Loader failure and cancellation of a pending load: the renderer does not handle either.
- `TemplateRenderer.Render` treats the registry as a plain map. JavaScript's lookup `templateRegistry[template.id]` would also find inherited object properties such as `constructor`. No catalog id is such a name, so this difference never shows in the application.
- The code viewer (`code-block.tsx`) and the highlighter wrapper (`lib/shiki.ts`): clipboard writes, toasts, theme detection and the highlighting library are external effects whose behaviour is not visible.
- The template detail route (`routes/templates/$templateId.tsx`): it is not part of this model. It turns any lookup failure into a not-found page and does not yet render the preview.
- The tRPC and environment wiring (`utils/trpc.ts`, `packages/api/src/routers/index.ts`, `packages/env/src/web.ts`): library plumbing.
- UiAllows: over-approximates what reaches the handlers. The browser's handling of `type="email"` and `required` inputs is not modelled: its value sanitization removes newlines and leading and trailing whitespace from the value `onChange` reads, so it already restricts the `Type(v)` events; and its validation blocks a submit with an empty or malformed address. In the model any string can be typed, and the forms' own empty and malformed checks are reachable.
- TemplatesPage.View: models the page's rendering conditions for a given query result. The route obtains that result at `apps/web/src/routes/templates.tsx:66` with `useTRPC.templates.getTemplates.useQuery()`, but `useTRPC` (`apps/web/src/utils/trpc.ts:5`) is a hook that returns the proxy and has no `templates` property itself; read as written, the component throws before reaching the conditions of lines 85-117, so the page never renders. `View` and `SeedCatalogNavigation` describe the page as evidently intended, with the hook called first and its result queried; the failure is a reading of the code, not an observed run.
- TemplateRenderer.Render: covers a single render. `lazy(templateLoader)` is called again on every render of the renderer, so a re-render creates a new lazy component and can show the loading skeleton again; the model does not capture re-renders.
- The input schema `z.string()` of `getTemplateById`: a non-string input is rejected with a validation error before the lookup. The model's input type is `string`, so that error path is not modelled.
- The `pending` counter of the form models is not component state. It stands for the timers the runtime holds, and it only restricts when `CompleteSubmit` may run.

# entrevista-frontend, modelled in Dafny

This project models the logic inside the React front end of an interview platform. An
interviewer logs in, optionally with a second factor. They build question templates, by hand
or from AI-generated questions, and invite candidates. Candidates answer free-text or
multiple-choice tests. Interviewers then review the scores, the anomaly reports and the
charts, and record a manual verdict.

Almost all of the front end is rendering and HTTP calls. The model keeps the decisions those
components make and treats every fetched payload, every server reply and every user event as
an input value. There is one Dafny module per source file:

- **QuestionForm**, **Result**: the keyword and length scorer over eight free-text answers.
  The 12-point pass mark. The manual 0–2 overrides and their total.
- **DeteccionAnomalias**: the weighted risk level. The severity and category tallies, with
  their defaults for missing fields.
- **GraficoCorrelaciones**, **GraficoBarras**, **MetricasKPI**, **ModulosBarChart**: chart
  preparation:
  - module extraction from `a_b` keys;
  - the correlation matrix and its strength labels;
  - the top five significant correlations;
  - per-module averages, sorted descending;
  - the KPI bands and trend labels;
  - module-name normalisation with rounding.
- **PlantillaForm**: editing of a template's questions and options. Validation that reports
  the first failing check.
- **EntrevistaPage**: the candidate's answer map, the answered count, the progress and the
  gating of the submit button.
- **GeneradorPreguntasIA**: the duplicate-free competency list and the guards on a generation
  request.
- **RegisterForm**, **LoginForm**: the e-mail regex (proved equal to the way it is computed),
  the five password rules, the login outcomes and the error mapping.
- **TwoFactorLogin**, **TwoFactorSetup**: the code sanitizers, `m:ss` formatting and the
  countdown tick. The setup wizard as a class whose handlers state its whole new state.
- **AxiosConfig**: the in-flight request counter that drives the loading signal. The status
  to message mapping. The 20-entry error log.
- **ErrorBoundary**: the caught-error state, retry, the 10-entry log and the choice of
  fallback.
- **UserService**, **DashboardPage**, **ProfilePage**, **EvaluacionDetailPage**,
  **EvaluacionManualPage**, **EntrevistaCompletadaCard**, **AuthCallbackPage**, **App**:
  - image URLs;
  - template search and deletion;
  - the IPG colour bands at 50/75 and at 60/80;
  - the verdict checks;
  - the approved, rejected and pending counts;
  - the OAuth callback decision;
  - the screen machine of the legacy app.
- **Js** (`common.dfy`): the JavaScript built-ins the others rely on:
  - falsy values and `||` defaults;
  - `trim`, `includes`, `startsWith` and `replace`;
  - lower-casing;
  - `parseInt`;
  - descending sort;
  - the push-then-trim of bounded logs;
  - objects as association lists, kept in insertion order.

Components that mutate state step by step are Dafny classes. Their methods carry `modifies`
clauses and state the new value of every field. Pure helpers are functions, with lemmas
relating them to an independent description: a regex read literally, a first-failure scan,
a multiset, a subsequence, or a fold.

## Model

| member | source | states |
|---|---|---|
| QuestionForm.AlgunaClaveIff | src/components/QuestionForm.js:44 | the keyword test holds exactly when some keyword of the list occurs at some position of the text |
| QuestionForm.Puntaje | src/components/QuestionForm.js:40-46 | an answer scores at most 2; 2 exactly when it has both the length point and the keyword point, 0 exactly when it has neither |
| QuestionForm.PuntoClaveIff | src/components/QuestionForm.js:41-44 | the keyword point is earned exactly when a keyword of that question is a substring of the lower-cased, untrimmed answer |
| QuestionForm.BlankNoLengthPoint | src/components/QuestionForm.js:43 | an answer made only of white space never earns the length point |
| QuestionForm.Puntuaciones | src/components/QuestionForm.js:39-47 | one score per answer, in order, numbered from 1 |
| QuestionForm.TotalBounds | src/components/QuestionForm.js:49 | with every score at most 2, the total is at most twice the number of answers |
| QuestionForm.AutomaticTotalRange | src/components/QuestionForm.js:49 | for the eight answers the automatic total is at most 16 |
| QuestionForm.Clasificar | src/components/QuestionForm.js:50-52 | the verdict is APTO exactly when the total is 12 or more |
| QuestionForm.SumarPuntajes | src/components/QuestionForm.js:49 | the accumulating loop returns the sum of the scores |
| QuestionForm.EscribirLineas | src/components/QuestionForm.js:54-57 | the loop leaves the header followed by one line per answer, in order |
| QuestionForm.EvaluarRespuestas | src/components/QuestionForm.js:38-61 | the report is the header, the per-answer lines, then the verdict for the summed scores |
| QuestionForm.TotalAtMostTwicePuntuadas | src/components/QuestionForm.js:40-49 | the total is at most twice the number of answers that scored |
| QuestionForm.AptoNeedsSixScoredAnswers | src/components/QuestionForm.js:49-52 | an APTO verdict needs at least six answers that scored |
| QuestionForm.AlgunaVaciaIff | src/components/QuestionForm.js:68 | the blank-answer guard fires exactly when some answer trims to the empty string |
| QuestionForm.Formulario.constructor | src/components/QuestionForm.js:28-30 | eight empty answers and no error |
| QuestionForm.Formulario.HandleInputChange | src/components/QuestionForm.js:32-36 | only slot `index` changes, to the new value |
| QuestionForm.Formulario.HandleSubmit | src/components/QuestionForm.js:63-99 | a blank answer stops with the "answer all" message and no report; otherwise the report is produced and the status update decides the error left on the form |
| Result.Total | src/components/Result.js:20 | the sum is `NaN` exactly when some score is `NaN` |
| Result.TotalRange | src/components/Result.js:20 | with every score in 0..2 the total is a number in 0..2n |
| Result.Resultado | src/components/Result.js:21-23 | APTO exactly when the total is a number of 12 or more |
| Result.OpcionesParse | src/components/Result.js:93-100 | every selector value parses back to the score it shows |
| Result.EvaluacionManual.constructor | src/components/Result.js:17 | eight scores of 0, total 0 |
| Result.EvaluacionManual.HandleManualScore | src/components/Result.js:25-29 | only slot `index` changes, to `parseInt(value)` |
| Result.InitialTotal | src/components/Result.js:17-20 | all-zero scores total 0 |
| Result.SelectKeepsRange | src/components/Result.js:25-29 | choosing a selector value keeps every score in 0..2 and the eight-question total in 0..16 |
| Result.ExtractEvalDePregunta | src/components/Result.js:71-73 | the whole analysis when it is truthy, otherwise "Sin análisis"; never empty |
| Result.Registros | src/components/Result.js:32-39 | exactly eight records, numbered 1..8, each with its score, the answer or "" and the analysis, and an empty comment |
| App.ComponenteDe | src/App.js:76-108 | the login screen shows the login form and the result screen the result view, and no other screen shows either |
| App.ComponentePorPantalla | src/App.js:76-108 | two screens render the same component only when they are the same screen |
| App.Aplicacion.constructor | src/App.js:15-20 | starts on the login screen with no session, no candidate, and an empty analysis and answer list |
| App.Aplicacion.HandleLogin | src/App.js:22-26 | stores the interviewer and opens the dashboard; the session header shows exactly when the id is non-zero |
| App.Aplicacion.HandleInicio | src/App.js:28-31 | stores the candidate and opens the question form; nothing else changes |
| App.Aplicacion.HandleFormSubmit | src/App.js:33-37 | stores the analysis and answers and opens the result screen; the session and candidate stay |
| App.Aplicacion.HandleBack | src/App.js:39-44 | clears the analysis, the answers and the candidate and returns to the dashboard, keeping the interviewer |
| App.Aplicacion.CerrarSesion | src/App.js:46-52 | clears the interviewer, the name and the candidate and returns to login, hiding the session header; the analysis and answers are left as they were |
| App.Aplicacion.IrA | src/App.js:65 | "Ver historial", like the "Volver" handlers of lines 81 and 107, changes the screen and nothing else |
| AuthCallbackPage.MensajeError | src/pages/AuthCallbackPage.jsx:17-28 | 'auth_failed' and 'server_error' get their own messages, anything else the "unknown" one; the initial default is never the result |
| AuthCallbackPage.HandleCallback | src/pages/AuthCallbackPage.jsx:11-55 | an error wins over a token and goes to /login; a token that is stored goes to /dashboard with the success toast; a failed store or a missing token goes to /login with its message |
| AuthCallbackPage.SoloTokenSinErrorEntra | src/pages/AuthCallbackPage.jsx:15-54 | the token is stored and the dashboard opened exactly when no error, a token and a working store coincide; every other outcome is /login, and the default message never shows |
| TwoFactorLogin.Pad2 | src/components/TwoFactorLogin.jsx:54 | a one-character text gets a leading '0'; longer texts are unchanged |
| TwoFactorLogin.ParsePadded | src/components/TwoFactorLogin.jsx:53-54 | the padded seconds field has two digits and reads back as the seconds |
| TwoFactorLogin.SplitJoin | src/components/TwoFactorLogin.jsx:54 | an `m:ss` text splits back into its minutes and seconds at the third character from the end |
| TwoFactorLogin.FormatTimeRoundTrip | src/components/TwoFactorLogin.jsx:51-55 | the countdown display is exact: reading `m:ss` as minutes × 60 + seconds gives back the time left |
| TwoFactorLogin.SanitizarCodigo | src/components/TwoFactorLogin.jsx:141 | the code field holds at most six characters, all digits |
| TwoFactorLogin.SanitizarRespaldo | src/components/TwoFactorLogin.jsx:202 | the backup field holds at most eight characters, all upper-case letters or digits |
| TwoFactorLogin.SanitizarCodigoIdempotent | src/components/TwoFactorLogin.jsx:141 | sanitising an already sanitised code changes nothing |
| TwoFactorLogin.SanitizarRespaldoIdempotent | src/components/TwoFactorLogin.jsx:202 | sanitising an already sanitised backup code changes nothing |
| TwoFactorLogin.CrearSolicitud | src/components/TwoFactorLogin.jsx:66-70 | the request carries the temporary token and exactly one of `token` and `backupCode`, the one in use |
| TwoFactorLogin.MensajeFallo | src/components/TwoFactorLogin.jsx:81 | the server's message when it is truthy, otherwise "Error en la verificación" |
| TwoFactorLogin.Pantalla.constructor | src/components/TwoFactorLogin.jsx:27-31 | 300 seconds on a running timer, empty fields, not verifying |
| TwoFactorLogin.Pantalla.Tick | src/components/TwoFactorLogin.jsx:36-45 | a running timer at 1 or below stops at 0 and leaves the screen; above 1 it counts down by one; a stopped timer does nothing; the fields are untouched |
| TwoFactorLogin.Pantalla.CambiarCodigo | src/components/TwoFactorLogin.jsx:141 | the code field becomes the sanitised input; nothing else changes |
| TwoFactorLogin.Pantalla.CambiarRespaldo | src/components/TwoFactorLogin.jsx:202 | the backup field becomes the sanitised input; nothing else changes |
| TwoFactorLogin.Pantalla.HandleVerification | src/components/TwoFactorLogin.jsx:57-93 | a request is sent exactly when the field in use is non-empty and of length 6 (code) or 8 (backup); on a server failure only that field is cleared, and verifying ends once a request was sent |
| TwoFactorSetup.Asistente.constructor | src/components/TwoFactorSetup.jsx:36-52 | 2FA off with no date, the spinner on, step 0, every text empty, no backup codes, every dialog closed |
| TwoFactorSetup.Asistente.PasoFinalOculto | src/components/TwoFactorSetup.jsx:217-369 | in every reachable state the step-3 panel is not rendered: step 3 is only reached by enabling, and the enabled panel then takes its place |
| TwoFactorSetup.Asistente.CargarEstado | src/components/TwoFactorSetup.jsx:72-83 | the spinner goes off, the fetched status replaces the old one when the request succeeds, and nothing else changes |
| TwoFactorSetup.Asistente.GenerarSecreto | src/components/TwoFactorSetup.jsx:84-98 | a generated secret stores the QR code and the manual key and moves the wizard from step 0 to step 1; a failure leaves it on step 0; the busy flag ends off |
| TwoFactorSetup.Asistente.Continuar | src/components/TwoFactorSetup.jsx:320 | "ya configuré" moves from step 1 to step 2 and changes nothing else |
| TwoFactorSetup.Asistente.Volver | src/components/TwoFactorSetup.jsx:352 | "volver" moves from step 2 back to step 1 and changes nothing else |
| TwoFactorSetup.Asistente.CambiarCodigo | src/components/TwoFactorSetup.jsx:340 | the code field becomes the input with non-digits removed, cut to six characters; nothing else changes |
| TwoFactorSetup.Asistente.Habilitar | src/components/TwoFactorSetup.jsx:100-122 | the request is sent exactly when the code has six characters; success stores the backup codes, marks 2FA on with the given date and goes to step 3; a failure keeps step 2; a code that is not sent changes nothing |
| TwoFactorSetup.Asistente.BotonHabilitarPasaGuarda | src/components/TwoFactorSetup.jsx:359-360 | whenever the enable button is clickable, the six-digit guard inside the handler passes |
| TwoFactorSetup.Asistente.Finalizar | src/components/TwoFactorSetup.jsx:412-417 | "finalizar" returns to step 0 and clears the QR code, the key and the code, keeping the backup codes |
| TwoFactorSetup.Asistente.AbrirDeshabilitar | src/components/TwoFactorSetup.jsx:244 | "deshabilitar" on the enabled panel opens the dialog and changes nothing else |
| TwoFactorSetup.Asistente.CerrarDeshabilitar | src/components/TwoFactorSetup.jsx:469-473 | closing the disable dialog clears its password and token and changes nothing else |
| TwoFactorSetup.Asistente.CambiarDisablePassword | src/components/TwoFactorSetup.jsx:453 | only the dialog's password field changes |
| TwoFactorSetup.Asistente.CambiarDisableToken | src/components/TwoFactorSetup.jsx:462 | only the dialog's token field changes |
| TwoFactorSetup.Asistente.Deshabilitar | src/components/TwoFactorSetup.jsx:124-147 | success turns 2FA off, returns to step 0 and clears the secret, the code, the backup codes and the dialog; a failure only ends the busy flag |
| TwoFactorSetup.Asistente.AbrirRegenerar | src/components/TwoFactorSetup.jsx:236 | "regenerar" on the enabled panel opens its dialog and changes nothing else |
| TwoFactorSetup.Asistente.CerrarRegenerar | src/components/TwoFactorSetup.jsx:518-521 | closing the regenerate dialog clears its token and changes nothing else |
| TwoFactorSetup.Asistente.CambiarRegenerateToken | src/components/TwoFactorSetup.jsx:511 | only the regenerate token changes |
| TwoFactorSetup.Asistente.Regenerar | src/components/TwoFactorSetup.jsx:149-163 | new codes replace the old ones and are shown, and the dialog closes with its token cleared; a failure changes nothing |
| TwoFactorSetup.Asistente.MostrarRespaldo | src/components/TwoFactorSetup.jsx:569 | showing or hiding the backup codes changes only that flag |
| AxiosConfig.Paso | src/utils/axiosConfig.js:37-40 | a start raises the counter by one and a finish lowers it by one; a loading value, saying whether requests remain, is handed out exactly on the 0 → 1 and 1 → 0 transitions |
| AxiosConfig.EjecutarEquilibrada | src/utils/axiosConfig.js:20-93 | over any history in which no finish precedes its start, the counter equals the requests in flight and the last loading value handed out says whether any is |
| AxiosConfig.ErrorSinInicio | src/utils/axiosConfig.js:58-62 | a request error with no request in flight drives the counter to -1: the history is not balanced |
| AxiosConfig.TextosCampos | src/utils/axiosConfig.js:149 | one toast per entry of the `errors` array, in order, each its `msg` or else its `message` |
| AxiosConfig.Manejar | src/utils/axiosConfig.js:105-181 | the token is removed exactly on a 401 with TOKEN_EXPIRED, the page leaves for /login exactly on a 401 with TOKEN_EXPIRED or NO_TOKEN, a 422 with an `errors` array toasts each entry, every other failure toasts exactly one message, and a failure without a response toasts the connection message |
| AxiosConfig.ServidorNoDisponible | src/utils/axiosConfig.js:165-170 | 502, 503 and 504 all give the single "server unavailable" toast and no session effect |
| AxiosConfig.SesionNoValida | src/utils/axiosConfig.js:114-129 | a 401 with NO_TOKEN redirects but keeps the token; one with TOKEN_EXPIRED removes the token and redirects |
| AxiosConfig.MensajeDelServidor | src/utils/axiosConfig.js:109-143 | for 400, 409 and a 401 without a code, a truthy server message is the toast shown |
| AxiosConfig.Api.constructor | src/utils/axiosConfig.js:19-21 | no request in flight, nothing handed out, no listeners, the stored token and error log as given |
| AxiosConfig.Api.OnLoadingChange | src/utils/axiosConfig.js:24-25 | the listener joins the set; nothing else changes |
| AxiosConfig.Api.Desuscribir | src/utils/axiosConfig.js:26 | exactly that listener leaves the set; nothing else changes |
| AxiosConfig.Api.AlEnviar | src/utils/axiosConfig.js:35-56 | the counter and loading signal take one start step, keeping the invariant; the header is `Bearer ` followed by the token exactly when a truthy token is stored |
| AxiosConfig.Api.Terminar | src/utils/axiosConfig.js:73-76 | the counter and loading signal take one finish step; the invariant survives when a request was in flight, and otherwise the counter becomes -1 |
| AxiosConfig.Api.FalloEnPeticion | src/utils/axiosConfig.js:58-66 | the request-error path takes one finish step with no matching start, so on an idle client the counter becomes -1 |
| AxiosConfig.Api.AlResponder | src/utils/axiosConfig.js:71-87 | a response takes one finish step and keeps the invariant |
| AxiosConfig.Api.LogError | src/utils/axiosConfig.js:202-228 | in production the entry is appended and only the newest 20 are kept, the entry last; otherwise the log is unchanged |
| AxiosConfig.Api.AlFallarRespuesta | src/utils/axiosConfig.js:88-195 | a failed response takes one finish step, appends the toasts of the status mapping, removes the token and redirects as it says, and logs the entry in production |
| ErrorBoundary.Boundary.constructor | src/components/ErrorBoundary.jsx:10-18 | no error, no error info, no id, and the stored log as given |
| ErrorBoundary.Boundary.GetDerivedStateFromError | src/components/ErrorBoundary.jsx:20-23 | only `hasError` changes, to true |
| ErrorBoundary.Boundary.LogErrorToService | src/components/ErrorBoundary.jsx:60-74 | the entry is appended, only the newest ten are kept, and it is the last of them; the rest of the state is untouched |
| ErrorBoundary.Boundary.ComponentDidCatch | src/components/ErrorBoundary.jsx:25-58 | the error, its component stack and the new id are stored; in production the matching entry is logged, otherwise the log is unchanged |
| ErrorBoundary.Boundary.HandleRetry | src/components/ErrorBoundary.jsx:80-87 | the four state fields return to their initial values and the log is kept |
| ErrorBoundary.Boundary.Render | src/components/ErrorBoundary.jsx:89-165 | the children exactly when no error was caught; otherwise the custom fallback with the captured state, or the default one showing the id only when it is truthy and the message only in development |
| ErrorBoundary.Boundary.RetryMuestraHijos | src/components/ErrorBoundary.jsx:80-90 | after a retry the children render again, whatever the fallback |
| UserService.CleanPath | src/services/userService.js:66 | the result starts with '/', adding one only when the path has none |
| UserService.CleanPathIdempotent | src/services/userService.js:66 | cleaning an already clean path adds nothing |
| UserService.GetImageUrl | src/services/userService.js:51-69 | nothing exactly for a missing or empty path; an `http` path as it is; otherwise the API URL without its first "/api" followed by the cleaned path |
| UserService.ImageUrlShape | src/services/userService.js:63-68 | a relative path follows the base after exactly one '/', and a base holding no "/api" is used unchanged |
| DashboardPage.CoincidentesSpec | src/pages/DashboardPage.jsx:234-237 | a template is kept exactly when its lower-cased name or description contains the lower-cased term, and the kept ones stay in order |
| DashboardPage.CoincidentesIdempotent | src/pages/DashboardPage.jsx:234-237 | filtering the filtered list again changes nothing |
| DashboardPage.FiltradasSpec | src/pages/DashboardPage.jsx:232-238 | an empty term shows every template; any other keeps exactly the matching ones, in order; the filter is idempotent |
| DashboardPage.SubsecuenciaRefl | src/pages/DashboardPage.jsx:232 | a list is an in-order selection of itself, so the unfiltered list qualifies |
| DashboardPage.SinIdSpec | src/pages/DashboardPage.jsx:117 | exactly the templates with that id are removed, and the rest keep their order |
| DashboardPage.SinIdAusente | src/pages/DashboardPage.jsx:117 | removing an id no template has leaves the list unchanged |
| DashboardPage.Buscar | src/pages/DashboardPage.jsx:91 | a found template is in the list and has the id; nothing is found exactly when no template has it |
| DashboardPage.BuscarPrimero | src/pages/DashboardPage.jsx:91 | the one found is the first with that id |
| DashboardPage.HandleEliminar | src/pages/DashboardPage.jsx:87-101 | the dialog opens on the id, named after the first template with it, or "esta plantilla" when there is none |
| DashboardPage.HandleConfirmEliminar | src/pages/DashboardPage.jsx:104-132 | without an id, or after a failed delete, the list and dialog stay; after a successful one the templates with that id are removed and the dialog closes |
| DashboardPage.HandleCancelEliminar | src/pages/DashboardPage.jsx:134-137 | the dialog closes and forgets the template |
| DashboardPage.EliminarTrasConfirmar | src/pages/DashboardPage.jsx:87-120 | opening the dialog on a non-zero id and confirming with success removes exactly the templates with that id, keeps the others in order, and closes the dialog |
| ProfilePage.BandaIPG | src/pages/ProfilePage.jsx:63-71 | the low band is below 50, the middle band from 50 up to below 75, the high band 75 and above |
| ProfilePage.GetIPGColor | src/pages/ProfilePage.jsx:63-71 | the colour is the palette name of the IPG's band |
| ProfilePage.GetIPGBackgroundColor | src/pages/ProfilePage.jsx:74-82 | the background is the main shade of the palette of the IPG's band |
| ProfilePage.MismasBandas | src/pages/ProfilePage.jsx:63-82 | the two colour functions cut at the same places, and a higher IPG never gets a lower band |
| ProfilePage.PromedioMostrado | src/pages/ProfilePage.jsx:477 | a missing average is shown as 0, in the low band; any other is shown as it is |
| ProfilePage.TareaDe | src/pages/ProfilePage.jsx:114-140 | a task is pending exactly when the manual evaluation is pending, and completed otherwise; id, date, evaluation state and IPG are copied; title and description name the candidate and the template |
| ProfilePage.TareasReales | src/pages/ProfilePage.jsx:113-140 | no list means no tasks; otherwise the first five interviews, or all when fewer, each turned into its task in order |
| ProfilePage.EtiquetaChip | src/pages/ProfilePage.jsx:561-566 | pending, approved and rejected have their own labels, anything else is "Completado" |
| ProfilePage.ColorChip | src/pages/ProfilePage.jsx:567-572 | pending is warning, approved success, rejected error, anything else default |
| ProfilePage.ChipCoincideConEstado | src/pages/ProfilePage.jsx:117-566 | a task is pending exactly when its chip reads "Pendiente Evaluación" |
| EvaluacionDetailPage.ErrorDeId | src/pages/EvaluacionDetailPage.jsx:77-79 | the request goes ahead exactly when the route id is truthy and not the text "undefined"; otherwise the invalid-id message |
| EvaluacionDetailPage.HandleSubmitEvaluacion | src/pages/EvaluacionDetailPage.jsx:148-176 | no decision or a blank comment gives the fields message; a trimmed comment under ten characters the length message; a bad id the id message; otherwise the decision and the trimmed comment are sent |
| EvaluacionDetailPage.ConfirmarIff | src/pages/EvaluacionDetailPage.jsx:580 | the confirm button is enabled exactly when both field checks pass; it then sends exactly when the id is valid, and otherwise a click is rejected by a field check |
| EvaluacionDetailPage.ComentarioEnviadoLimpio | src/pages/EvaluacionDetailPage.jsx:175 | a sent comment is already trimmed and at least ten characters long |
| EvaluacionDetailPage.GetChipColor | src/pages/EvaluacionDetailPage.jsx:208-212 | success from 80, warning from 60 up to below 80, error below 60 |
| EvaluacionDetailPage.GetChipColorMonotone | src/pages/EvaluacionDetailPage.jsx:208-212 | a higher IPG never gets a worse colour |
| EvaluacionDetailPage.IpgMostrado | src/pages/EvaluacionDetailPage.jsx:484-485 | a missing IPG is shown as 0; any other as it is |
| EvaluacionManualPage.GetEstadoEvaluacion | src/pages/EvaluacionManualPage.jsx:117-125 | 'aprobado' is the green "Aprobado" chip, 'rechazado' the red "Rechazado" chip, and anything else, a missing status included, the "Pendiente" warning chip |
| EvaluacionManualPage.EstadoEvaluacionInyectiva | src/pages/EvaluacionManualPage.jsx:117-125 | two statuses with the same chip agree on being approved and on being rejected |
| EvaluacionManualPage.OVacia | src/pages/EvaluacionManualPage.jsx:65-66 | a missing list is shown as the empty one |
| EvaluacionManualPage.Contar | src/pages/EvaluacionManualPage.jsx:198 | a counter never exceeds the evaluated total |
| EvaluacionManualPage.ContarSpec | src/pages/EvaluacionManualPage.jsx:198 | the counter equals the number of positions whose candidate has that status |
| EvaluacionManualPage.AprobadosMasRechazados | src/pages/EvaluacionManualPage.jsx:198-215 | approved plus rejected never exceeds the evaluated total |
| EntrevistaCompletadaCard.Render | src/components/EntrevistaCompletadaCard.jsx:35-146 | the status chip follows the manual status as on the evaluation page; the template falls back to "No disponible"; the "Evaluada" line appears exactly with a truthy date; a missing IPG is shown as 0, and the IPG chip uses the 80/60 cut |
| EntrevistaCompletadaCard.SinIpgEnRojo | src/components/EntrevistaCompletadaCard.jsx:144-146 | an interview with no IPG gets the red chip |
| DeteccionAnomalias.Peso | src/components/DeteccionAnomalias.jsx:93-100 | every weight lies in 1..3; 3 exactly for 'Alta', 2 exactly for 'Media', and 1 for 'Baja', any other value or a missing one |
| DeteccionAnomalias.SumaPesosBounds | src/components/DeteccionAnomalias.jsx:99-101 | the weight sum lies between the number of anomalies and three times it |
| DeteccionAnomalias.SumaPesosAppend | src/components/DeteccionAnomalias.jsx:99-101 | the weight sum of two lists joined is the sum of their weight sums |
| DeteccionAnomalias.Nivel | src/components/DeteccionAnomalias.jsx:103-105 | 'Alto' exactly from 10, 'Medio' exactly from 5 up to below 10, 'Bajo' exactly below 5 |
| DeteccionAnomalias.CalcularNivelRiesgo | src/components/DeteccionAnomalias.jsx:92-106 | no anomalies is low risk; ten or more is high risk; a low risk means fewer than five anomalies and a high one at least four |
| DeteccionAnomalias.NivelMonotone | src/components/DeteccionAnomalias.jsx:99-105 | adding anomalies never lowers the risk level |
| DeteccionAnomalias.ClavesCons | src/components/DeteccionAnomalias.jsx:70-74 | the keys of a table with an entry in front are that entry's key and the keys of the rest |
| DeteccionAnomalias.SumarSpec | src/components/DeteccionAnomalias.jsx:72 | one accumulator step adds one to the total count and adds the key to the key set |
| DeteccionAnomalias.SumarLookup | src/components/DeteccionAnomalias.jsx:72 | after a step the key reads one more than before, or 1 when it was absent, and every other key reads as before |
| DeteccionAnomalias.SumarDistinct | src/components/DeteccionAnomalias.jsx:72 | a step keeps every key stored once |
| DeteccionAnomalias.TallyLookup | src/components/DeteccionAnomalias.jsx:70-74 | each key of the folded list is stored with the number of times it occurs, and no other key is stored |
| DeteccionAnomalias.TallyShape | src/components/DeteccionAnomalias.jsx:70-74 | the tally stores each key once and its counts sum to the length of the list |
| DeteccionAnomalias.Contar | src/components/DeteccionAnomalias.jsx:70-74 | the accumulator loop returns the tally of its keys |
| DeteccionAnomalias.Severidades | src/components/DeteccionAnomalias.jsx:71 | one key per anomaly, in order: its severity, or 'Baja' when it is missing or empty |
| DeteccionAnomalias.Categorias | src/components/DeteccionAnomalias.jsx:77 | one key per anomaly, in order: its category, or 'General' when it is missing or empty |
| DeteccionAnomalias.CalcularEstadisticasAnomalias | src/components/DeteccionAnomalias.jsx:64-90 | the method computes the statistics of the payload: none when it returns early, otherwise the count, the two tallies and the risk level |
| DeteccionAnomalias.EstadisticasCases | src/components/DeteccionAnomalias.jsx:65-67 | no statistics exactly when the payload or its `anomalias` field is falsy; a non-array field counts as no anomalies |
| DeteccionAnomalias.EstadisticasTotals | src/components/DeteccionAnomalias.jsx:68-80 | the severity counts and the category counts each sum to the total, with each key stored once |
| DeteccionAnomalias.ContarSeveridadMultiset | src/components/DeteccionAnomalias.jsx:70-74 | the number of anomalies counted under a severity is its multiplicity among the severity keys |
| DeteccionAnomalias.BajaIncludesMissing | src/components/DeteccionAnomalias.jsx:71-72 | an anomaly with no severity is counted under 'Baja' |
| GraficoCorrelaciones.UpToUnderscore | src/components/graficos/GraficoCorrelaciones.jsx:16 | the part of a key before its first '_': a prefix free of '_', followed in the key by '_' unless it is the whole key |
| GraficoCorrelaciones.UpToUnderscoreOfJoin | src/components/graficos/GraficoCorrelaciones.jsx:16 | for an `a_b` key whose first name has no '_', the part before the first '_' is that name |
| GraficoCorrelaciones.UpToUnderscoreOfPlain | src/components/graficos/GraficoCorrelaciones.jsx:16 | a text with no '_' is kept whole |
| GraficoCorrelaciones.SplitKeyOfKey | src/components/graficos/GraficoCorrelaciones.jsx:16-28 | splitting a key built from two module names without '_' gives back those two names |
| GraficoCorrelaciones.Partes | src/components/graficos/GraficoCorrelaciones.jsx:15-16 | one pair of halves per key, in the order of the keys |
| GraficoCorrelaciones.AddNoDup | src/components/graficos/GraficoCorrelaciones.jsx:17-18 | adding to the set never creates a duplicate |
| GraficoCorrelaciones.ModulosMember | src/components/graficos/GraficoCorrelaciones.jsx:14-20 | a module is in the list exactly when it is one of the two halves of some key |
| GraficoCorrelaciones.ModulosNoDup | src/components/graficos/GraficoCorrelaciones.jsx:14-20 | the module list has no duplicates |
| GraficoCorrelaciones.ExtraerModulos | src/components/graficos/GraficoCorrelaciones.jsx:14-20 | the loop over the keys returns the module list: both halves of every key, each once, in first-seen order |
| GraficoCorrelaciones.Matriz | src/components/graficos/GraficoCorrelaciones.jsx:23-32 | the matrix is N×N for N modules with 1 on the diagonal; with distinct modules each other cell is the `a_b` value, else the `b_a` value, else 0, skipping stored zeros |
| GraficoCorrelaciones.ZeroFallsThrough | src/components/graficos/GraficoCorrelaciones.jsx:30 | a stored 0 under `a_b` is falsy, so the `b_a` entry is read instead |
| GraficoCorrelaciones.CeldaSymmetric | src/components/graficos/GraficoCorrelaciones.jsx:27-30 | the matrix is symmetric at a pair when at most one orientation holds a non-zero value or both hold the same value |
| GraficoCorrelaciones.AsymmetricWhenBothStored | src/components/graficos/GraficoCorrelaciones.jsx:27-30 | with `a_b` = 0.5 and `b_a` = 0.7 the two cells differ, so the matrix is not symmetric in general |
| GraficoCorrelaciones.Abs | src/components/graficos/GraficoCorrelaciones.jsx:55 | the absolute value is non-negative and equals the value or its negation |
| GraficoCorrelaciones.CorrelationText | src/components/graficos/GraficoCorrelaciones.jsx:54-61 | the strength label by absolute value, each band in both directions: from 0.8, from 0.6, from 0.4, from 0.2, and below 0.2 |
| GraficoCorrelaciones.CorrelationTextSignFree | src/components/graficos/GraficoCorrelaciones.jsx:54-61 | a correlation and its negation get the same label |
| GraficoCorrelaciones.Significativas | src/components/graficos/GraficoCorrelaciones.jsx:142 | every entry kept has strength at least 0.4 |
| GraficoCorrelaciones.SignificativasMultiset | src/components/graficos/GraficoCorrelaciones.jsx:141-142 | the filter keeps only entries of the map, and every entry of strength at least 0.4 is kept |
| GraficoCorrelaciones.SortByAbs | src/components/graficos/GraficoCorrelaciones.jsx:143 | sorting keeps the number of entries |
| GraficoCorrelaciones.TopSpec | src/components/graficos/GraficoCorrelaciones.jsx:141-145 | at most five entries are listed, all of strength at least 0.4, in non-increasing strength |
| GraficoCorrelaciones.TopMultiset | src/components/graficos/GraficoCorrelaciones.jsx:141-145 | the listed entries come from the map, and when fewer than five are listed they are all the significant ones |
| GraficoCorrelaciones.TopIsStrongest | src/components/graficos/GraficoCorrelaciones.jsx:143-144 | no significant entry left out of the list is stronger than a listed one |
| GraficoCorrelaciones.NingunaIff | src/components/graficos/GraficoCorrelaciones.jsx:173-175 | the "none significant" message shows exactly when no entry reaches strength 0.4 |
| GraficoCorrelaciones.Mostrar | src/components/graficos/GraficoCorrelaciones.jsx:3-32 | a missing or empty map gives the no-data card; otherwise a duplicate-free module list, a square matrix with unit diagonal, and at most five listed entries |
| GraficoBarras.Acumular | src/components/graficos/GraficoBarras.jsx:42-46 | one inner step either updates a stored module or adds one entry |
| GraficoBarras.AcumularLookup | src/components/graficos/GraficoBarras.jsx:42-46 | after a step the module reads its old total plus the points and its old count plus one, or the points and 1 when it was new; every other module reads as before |
| GraficoBarras.StatsLookup | src/components/graficos/GraficoBarras.jsx:37-49 | every module that occurs is stored with the sum of its points and its number of occurrences, and no other module is stored |
| GraficoBarras.CuentaZero | src/components/graficos/GraficoBarras.jsx:45-46 | a module that never occurs adds no points |
| GraficoBarras.AcumularShape | src/components/graficos/GraficoBarras.jsx:42-46 | a step keeps every count at least 1 and every module stored once, and stores no key other than the old ones and the new module |
| GraficoBarras.StatsShape | src/components/graficos/GraficoBarras.jsx:42-55 | every stored count is at least 1 and every module is stored once, so no average divides by zero |
| GraficoBarras.AcumularSuma | src/components/graficos/GraficoBarras.jsx:46 | a step adds one to the sum of the counts |
| GraficoBarras.StatsSuma | src/components/graficos/GraficoBarras.jsx:39-49 | the counts add up to the number of results visited |
| GraficoBarras.AcumularModulos | src/components/graficos/GraficoBarras.jsx:37-49 | the nested loops return the table of the results of every interview that has them, in order |
| GraficoBarras.Promedios | src/components/graficos/GraficoBarras.jsx:51-55 | one row per stored module, in order, its total divided by its count |
| GraficoBarras.OrdenadosSpec | src/components/graficos/GraficoBarras.jsx:51-56 | the rows are in non-increasing average, and each is a module that occurs paired with the mean of its points |
| GraficoBarras.OrdenadosComplete | src/components/graficos/GraficoBarras.jsx:39-56 | every module that occurs gets a row |
| GraficoBarras.Mostrar | src/components/graficos/GraficoBarras.jsx:22-67 | missing or empty data gives the no-data card; otherwise labels and values have equal length and are index-aligned, holding the sorted averages for modules and the fallback label and value of each item otherwise |
| GraficoBarras.FallbackSpec | src/components/graficos/GraficoBarras.jsx:66-67 | the label falls back from `label` to `nombre` to 'Sin nombre', and the value from `valor` to `puntos` to 0, skipping falsy values |
| MetricasKPI.SinDatosCases | src/components/graficos/MetricasKPI.jsx:11 | an average of 0 is falsy and gives the no-data card like a missing one; a non-zero average with metrics present shows the panel |
| MetricasKPI.TendenciaTexto | src/components/graficos/MetricasKPI.jsx:42-51 | 'creciente' is exactly "Tendencia Positiva", 'decreciente' exactly "Tendencia Negativa", and every other value, a missing one included, "Tendencia Estable" |
| MetricasKPI.TendenciaConsistent | src/components/graficos/MetricasKPI.jsx:20-51 | the icon and the colour make the same three-way split as the text |
| MetricasKPI.Bandas | src/components/graficos/MetricasKPI.jsx:144-167 | a present deviation renders exactly one band: low up to 10, moderate above 10 up to 20, high above 20; an undefined one renders none |
| ModulosBarChart.Redondear | src/components/ModulosBarChart.jsx:51 | the rounded value is within one half of the score, halves going up |
| ModulosBarChart.RedondearProps | src/components/ModulosBarChart.jsx:51 | rounding leaves integers unchanged and never reverses an order |
| ModulosBarChart.RedondearPositivoIff | src/components/ModulosBarChart.jsx:51 | a score rounds to a positive value exactly when it is at least one half |
| ModulosBarChart.NombreModulo | src/components/ModulosBarChart.jsx:41-47 | the six listed keys get a different display name and every other key is shown as it is |
| ModulosBarChart.ColorGuardado | src/components/ModulosBarChart.jsx:15-25 | every colour stored in the palette is a non-empty string |
| ModulosBarChart.ColorModulo | src/components/ModulosBarChart.jsx:52 | a key of the palette gets its own colour, any other key the grey default; never the empty string |
| ModulosBarChart.RenamedKeysHaveColour | src/components/ModulosBarChart.jsx:15-52 | every renamed key has a palette colour, so the grey default only falls on modules shown under their raw key |
| ModulosBarChart.Filas | src/components/ModulosBarChart.jsx:39-54 | one row per entry, in entry order, with the display name, the rounded score and the colour of its key |
| ModulosBarChart.Datos | src/components/ModulosBarChart.jsx:38-61 | a failed request leaves no data, a payload without the field gives the empty list, and one with it gives its rows |
| ModulosBarChart.Mostrar | src/components/ModulosBarChart.jsx:27-87 | without an interview id the spinner stays; the chart shows exactly when the payload has the field and some row's value is positive, and then shows those rows |
| ModulosBarChart.DonaIff | src/components/ModulosBarChart.jsx:51-87 | with an interview id the chart shows exactly when some module score is at least one half |
| PlantillaForm.Splice | src/components/PlantillaForm.jsx:68 | removing at an index inside the list drops exactly that element and keeps the others in order; an index past the end removes nothing |
| PlantillaForm.PuntosDe | src/components/PlantillaForm.jsx:254 | the points are the parsed integer, or 0 when the text does not parse |
| PlantillaForm.Formatear | src/components/PlantillaForm.jsx:85-90 | one question per generated one, keeping its text, its module or 'Personalidad', and its options or one blank option |
| PlantillaForm.OpcionesValidas | src/components/PlantillaForm.jsx:121 | the filter never adds options |
| PlantillaForm.OpcionesValidasEmptyIff | src/components/PlantillaForm.jsx:121-122 | a question has no valid option exactly when every option's text trims to empty |
| PlantillaForm.FalloPregunta | src/components/PlantillaForm.jsx:115-125 | a failure on question i names index i |
| PlantillaForm.FalloPreguntaIff | src/components/PlantillaForm.jsx:115-125 | a blank text is reported before missing options; missing options are reported exactly when the text is present and no option has text; a question passes exactly when it has both |
| PlantillaForm.Fallos | src/components/PlantillaForm.jsx:114 | one outcome per question |
| PlantillaForm.FallosAt | src/components/PlantillaForm.jsx:114-125 | the outcome at index j is the check of question j |
| PlantillaForm.FallosIndexados | src/components/PlantillaForm.jsx:116-123 | each failure names the question that produced it |
| PlantillaForm.PrimerFalloNoneIff | src/components/PlantillaForm.jsx:114-126 | the scan finds nothing exactly when every remaining question passes |
| PlantillaForm.PrimerFalloSome | src/components/PlantillaForm.jsx:114-126 | a failure found by the scan is at the lowest failing index, with every earlier question passing |
| PlantillaForm.ValidarNoneIff | src/components/PlantillaForm.jsx:103-126 | a template is accepted exactly when the trimmed title is non-empty, there is a question, and every question passes |
| PlantillaForm.PasanIff | src/components/PlantillaForm.jsx:114-126 | the question loop finds nothing exactly when every question passes |
| PlantillaForm.TodasPasanIff | src/components/PlantillaForm.jsx:114-126 | every question passes exactly when each has a non-blank text and some option with a non-blank text |
| PlantillaForm.ValidarReportsFirst | src/components/PlantillaForm.jsx:114-126 | the question reported is the first one that fails, it fails in the way reported, and every earlier question passes |
| PlantillaForm.RevisarPreguntas | src/components/PlantillaForm.jsx:114-126 | the loop returns the first failure among the questions in order, or none |
| PlantillaForm.ValidarPlantilla | src/components/PlantillaForm.jsx:103-126 | the checks run in order, title, then question count, then each question, and return the first failure |
| PlantillaForm.Formulario.constructor | src/components/PlantillaForm.jsx:31-35 | an empty title, one blank 'Personalidad' question with one blank option, no error, generator closed |
| PlantillaForm.Formulario.CargarExistente | src/components/PlantillaForm.jsx:38-46 | an existing template sets the title, and its questions replace the current ones only when there are some |
| PlantillaForm.Formulario.CambiarTitulo | src/components/PlantillaForm.jsx:185 | only the title changes |
| PlantillaForm.Formulario.CambiarTextoPregunta | src/components/PlantillaForm.jsx:50-54 | only the text of question `index` changes |
| PlantillaForm.Formulario.CambiarModulo | src/components/PlantillaForm.jsx:50-54 | only the module of question `index` changes |
| PlantillaForm.Formulario.CambiarTextoOpcion | src/components/PlantillaForm.jsx:56-60 | only the text of one option of one question changes |
| PlantillaForm.Formulario.CambiarPuntos | src/components/PlantillaForm.jsx:56-60 | only the points of one option of one question change, to the parsed value or 0 |
| PlantillaForm.Formulario.AgregarPregunta | src/components/PlantillaForm.jsx:62-64 | one blank question is appended and the others are unchanged |
| PlantillaForm.Formulario.EliminarPregunta | src/components/PlantillaForm.jsx:66-70 | exactly question `index` is removed, the rest keep their order, and a form with two or more questions keeps at least one |
| PlantillaForm.Formulario.AgregarOpcion | src/components/PlantillaForm.jsx:72-76 | one blank option is appended to that question only |
| PlantillaForm.Formulario.EliminarOpcion | src/components/PlantillaForm.jsx:78-82 | exactly that option of that question is removed, and a question with two or more options keeps at least one |
| PlantillaForm.Formulario.HandlePreguntasGeneradas | src/components/PlantillaForm.jsx:85-95 | the formatted generated questions replace the list and the generator closes |
| PlantillaForm.Formulario.HandleSubmit | src/components/PlantillaForm.jsx:98-145 | a template is sent exactly when it passes validation, and then as it is; a failure shows the message of the first failing check; a failed save shows the save error |
| EntrevistaPage.IdsCard | src/pages/EntrevistaPage.jsx:48-52 | a list of questions has at least as many entries as distinct ids, so the initial answer map has no more keys than questions |
| EntrevistaPage.SubsetCard | src/pages/EntrevistaPage.jsx:83 | a set inside another has no more elements, and as many only when the two are equal |
| EntrevistaPage.IdsCardNoDup | src/pages/EntrevistaPage.jsx:48-52 | a list without repeated ids has exactly as many distinct ids as entries |
| EntrevistaPage.RespuestasIniciales | src/pages/EntrevistaPage.jsx:48-51 | the initial answer map has exactly the question ids as keys, each mapped to no answer |
| EntrevistaPage.Contestadas | src/pages/EntrevistaPage.jsx:83 | the answered count never exceeds the number of keys in the answer map |
| EntrevistaPage.ContestadasIniciales | src/pages/EntrevistaPage.jsx:48-52 | a freshly initialised answer map has no answered question |
| EntrevistaPage.Progreso | src/pages/EntrevistaPage.jsx:84 | progress is 0 without questions, lies in 0..100 when no more are answered than exist, and is 100 when all are answered |
| EntrevistaPage.Pagina.constructor | src/pages/EntrevistaPage.jsx:35-40 | no interview, loading, no error, no answers, not sent and not sending |
| EntrevistaPage.Pagina.RespondidasAtMostTotal | src/pages/EntrevistaPage.jsx:82-84 | while answers are kept only for the interview's questions, the answered count is at most the question count and progress stays within 0..100 |
| EntrevistaPage.Pagina.CargarEntrevista | src/pages/EntrevistaPage.jsx:42-59 | without a link nothing changes; a loaded interview gets one unanswered entry per question id and zero answered; a failed load shows the server message or the default one; loading ends either way |
| EntrevistaPage.Pagina.HandleRespuestaChange | src/pages/EntrevistaPage.jsx:63-65 | only the answer of that question changes, to the chosen option, and the map still covers only the interview's questions |
| EntrevistaPage.Pagina.HandleSubmit | src/pages/EntrevistaPage.jsx:67-79 | sending ends either way; success marks the test sent; failure shows the server message or the default one; the answers are untouched |
| EntrevistaPage.Pagina.PuedeEnviarIff | src/pages/EntrevistaPage.jsx:327 | the submit button is enabled only when nothing is being sent and every question has a chosen option; with distinct ids, that is also enough |
| GeneradorPreguntasIA.AgregarCompetencia | src/components/GeneradorPreguntasIA.jsx:59-67 | the trimmed input is appended and the input cleared exactly when it is non-blank and not yet listed, otherwise nothing changes; the list stays duplicate-free |
| GeneradorPreguntasIA.EliminarCompetencia | src/components/GeneradorPreguntasIA.jsx:69-74 | removal never lengthens the list |
| GeneradorPreguntasIA.EliminarCompetenciaSpec | src/components/GeneradorPreguntasIA.jsx:72 | the result is the list filtered on "not this competency", so the others keep their order; every copy of the competency goes, exactly the other elements stay, and removing an absent one changes nothing |
| GeneradorPreguntasIA.EliminarCompetenciaNoDup | src/components/GeneradorPreguntasIA.jsx:72 | removal keeps a duplicate-free list duplicate-free |
| GeneradorPreguntasIA.Cantidad | src/components/GeneradorPreguntasIA.jsx:205 | a parsed non-zero quantity is kept; 0 or a non-numeric input gives 10; the field is never 0 |
| GeneradorPreguntasIA.ErrorValidacion | src/components/GeneradorPreguntasIA.jsx:84-92 | the request goes ahead exactly when the trimmed position is non-empty and there is a competency; a blank position is reported first |
| GeneradorPreguntasIA.GenerarPreguntas | src/components/GeneradorPreguntasIA.jsx:83-114 | a request is sent exactly when the guards pass; a guard failure shows its message; a failed request shows the generation error and keeps the old questions; a success clears the error and shows the returned questions, or none |
| RegisterForm.ValidateEmailIff | src/components/RegisterForm.jsx:47-50 | the computed e-mail test accepts exactly the strings the regex matches: three non-empty runs without white space or '@', joined by '@' and then '.' |
| RegisterForm.ValidEmailShape | src/components/RegisterForm.jsx:48 | an accepted address has exactly one '@', not at the start, and no white space |
| RegisterForm.ValidatePassword | src/components/RegisterForm.jsx:53-62 | each flag holds exactly when the password is eight or more long, or holds a lower-case letter, an upper-case letter, a digit or one of the listed special characters |
| RegisterForm.IsPasswordValidIff | src/components/RegisterForm.jsx:53-67 | a password passes every check exactly when it is eight or more long and holds a lower-case letter, an upper-case letter, a digit and a listed special character |
| RegisterForm.AcceptedExample | src/components/RegisterForm.jsx:65-67 | the password "Abcdef1!" passes every check |
| RegisterForm.HandleEmailChange | src/components/RegisterForm.jsx:70-79 | the field takes the value and the registration error clears; the e-mail error shows exactly when the value is non-empty and fails the test |
| RegisterForm.HandlePasswordChange | src/components/RegisterForm.jsx:82-89 | the flags describe the new password and the registration error clears |
| RegisterForm.ErrorRegistro | src/components/RegisterForm.jsx:120-126 | status 409 gives the duplicate message; otherwise the server's `mensaje`, then its `message`, then the generic message; never empty |
| RegisterForm.HandleSubmit | src/components/RegisterForm.jsx:91-131 | the request is sent exactly when the e-mail and the password pass, the e-mail checked first; after sending, loading ends and the error is the mapped rejection or none; the page leaves for login exactly on success |
| LoginForm.ErrorLogin | src/components/LoginForm.jsx:101-109 | status 401 and 404 get their own messages; any other rejection shows a server message or the generic one, never an empty text |
| LoginForm.ErrorLoginFallback | src/components/LoginForm.jsx:101-108 | for other statuses the server's `message` is preferred, then its `mensaje`, then the generic message |
| LoginForm.Formulario.constructor | src/components/LoginForm.jsx:24-31 | empty fields, no errors, not loading, the first-factor screen and an empty temporary token |
| LoginForm.Formulario.HandleEmailChange | src/components/LoginForm.jsx:41-50 | the field takes the value and the login error clears; the e-mail error shows exactly when the value is non-empty and fails the same regex as registration |
| LoginForm.Formulario.HandleSubmit | src/components/LoginForm.jsx:52-113 | an invalid address sets the e-mail error and sends nothing; a second-factor answer switches screens with its temporary token; a body with a token returns it as the session; a rejection shows the mapped error; loading ends and e-mail and password are kept |
| LoginForm.Formulario.HandleBackFrom2FA | src/components/LoginForm.jsx:119-123 | the second-factor screen closes, the temporary token and the password are cleared, and the e-mail is kept |

## Left out

- Transport and storage are not modelled. Axios and `fetch`, `localStorage`, `navigate` and
  `window.location`, the clipboard and Blob downloads are all left out. A server reply is an
  input value: a `Some`/`None`, a success flag or a small outcome datatype. A stored token or
  a navigation is returned as a result, or kept as a field.
- Toasts and `console` output are left out, except for the toast text the axios interceptor
  chooses, which is modelled as an output list.
- Timers are left out: `setInterval`, `setTimeout` and React effects. The countdown is modelled
  by its tick step, and the 800 ms delay of the question form not at all.
- Lower-casing covers only ASCII and the Latin-1 capitals À to Þ. That is enough for the
  accented keywords; full Unicode case mapping is not modelled.
- String length counts characters. JavaScript counts UTF-16 code units, which differ only
  outside the Basic Multilingual Plane.
- `parseInt` is modelled for optionally signed decimal digits after leading white space. Hex
  prefixes and `NaN` as a number are not modelled: a failed parse is `None`.
- A JavaScript object used as a dictionary is an association list in insertion order.
  Integer-like keys, which JavaScript enumerates first, and inherited prototype keys such as
  `constructor` are not modelled.
- Server-computed statistics are not modelled, because they are only displayed. These are the
  per-module percentages, the composite IPG, the mean, standard deviation, median, percentiles
  and the trend slope.
- Floating-point colour maths and `toFixed` are left out. This covers the correlation colour
  scale and the golden-angle hues. Numbers are `real`, with no rounding error and no `NaN`.
- Other library and environment calls are left out:
  - date and locale formatting;
  - `jwt-decode`;
  - `JSON.parse` of the AI report;
  - the timestamp of the result record;
  - the time, user agent and URL of error-log entries.
- The error id of the error boundary comes from the clock and a random number in the source.
  It is a parameter of `ComponentDidCatch`.
- TwoFactorSetup is modelled without the `maxLength` attribute of its text fields. The disable
  and regenerate tokens are stored as typed, and only the enable code is sanitised by its
  handler.
- TwoFactorSetup's copy-to-clipboard and download helpers are left out, because they are I/O.
- DeteccionAnomalias' `getSeveridadColor` and `getSeveridadIcon` are left out, because they
  only choose how things are rendered.
- App.Aplicacion.CerrarSesion does not model the `localStorage.clear()` it performs, which is
  storage.
- ErrorBoundary.Boundary.constructor requires the stored `app_errors` log to hold at most ten
  entries, and AxiosConfig.Api.constructor requires its stored log to hold at most twenty. The
  source parses whatever storage holds, but the only writers of those keys trim on every push,
  so a longer stored log is not modelled.
- AxiosConfig.TextoCampo shows an empty text where the source would show `undefined`, for a
  field error without `msg` or `message`.
- EvaluacionManualPage and EntrevistaCompletadaCard use `EvaluacionDetailPage.GetChipColor`.
  Their own copies of the 80/60 cut have the same thresholds, so the function is defined once.
- The results page's 80/60 label has the same cut, and is represented by the same function.
- The following forms are not modelled: the legacy forms `RegistroForm.js`,
  `RegistroEntrevistador.js` and `LoginForm.js`, and the fetch wrappers `InicioForm.js`,
  `EntrevistaPostulante.js`, `GestionarEntrevistas.js`, `Historial.js`, `VerPostulantes.js`,
  `InvitarCandidato.jsx` and `estadisticasService.js`. Their only logic is "all fields
  required" before a request.
- Pure rendering components are not modelled.
- QuestionForm.EvaluarRespuestas and its companions require at most eight answers, one per
  keyword list. The form always holds exactly eight, and a ninth answer would read an
  undefined keyword list.
- PlantillaForm.Formulario's handlers require their indices to be in range. They are only
  called with the index of a rendered question or option.
- PlantillaForm.Formulario works on values. The source copies the question list shallowly
  (`[...preguntas]`), so its handlers also mutate option arrays shared with the previous state
  and with the `plantilla` prop. That aliasing is not modelled.
- EntrevistaPage.Pagina.HandleRespuestaChange requires the question id to belong to the loaded
  interview. The radio group calls it only for a rendered question.
- The answer of EntrevistaPage.Pagina.HandleRespuestaChange is an integer. The `NaN` that
  `parseInt` would give on a malformed radio value is not modelled.
- TwoFactorSetup.Asistente.PasoFinalOculto states a property of the code as written. In the
  source, step 3 of the setup wizard and its "Finalizar" button are never on screen, because
  reaching step 3 also marks two-factor authentication as enabled, and the enabled panel takes
  the wizard's place. The model keeps that behaviour.

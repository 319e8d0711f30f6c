# Listing and account workflow of a real-estate listings site

This project models the decision logic of the request handlers of a
server-rendered real-estate listings application, and proves properties of it
with Dafny. Sellers register, confirm their account through an emailed link,
log in, create listings, attach an image (which publishes the listing), edit,
hide and delete them; buyers send inquiry messages about a listing; the home
page's map filters the published listings by category and price tier.

Each handler is a pure function from a store and a request to a response and
a new store. Read-only handlers return only a response, so by construction
they change nothing.

- `Types` — users, listings, messages; the token column's three states (NULL,
  the empty string, a live token) are kept apart.
- `Http` — responses: a rendered template, a redirect, JSON, `next()`, a login
  redirect carrying the session claims, a request left unanswered because an
  exception was caught and only logged, and a crash when an exception escapes
  the async handler.
- `Js` — JavaScript `Number()` on the strings the handlers see (NaN included)
  and `String(n)` with its round trip.
- `Seqs` — order-preserving filtering and subsequences.
- `Propiedades` — the property controller: the owner's paginated dashboard,
  create, the image step, edit, delete, visibility toggle, public view,
  inquiries and the owner's inbox.
- `Usuarios` — the user controller: register, confirm, log in, request a
  reset, check a reset link, store a new password.
- `MapaInicio` — the client-side filters and the select change handlers.

## Model

| member | source | states |
|---|---|---|
| Propiedades.Pages | controllers/propiedadController.js:51 | the page count is the ceiling of total/3: zero for no listings, otherwise the least `pages` with `(pages-1)*3 < total <= pages*3` |
| Propiedades.Admin | controllers/propiedadController.js:6-52 | a page is accepted exactly when it is one digit 1-9; a rejected page answers with the redirect to page 1; an accepted page `p` renders offset `3(p-1)` (equal to what `page*limit-limit` computes), the owner's total, the page count, and the window of at most three of the owner's listings starting at the offset |
| Propiedades.EnumerationSize | controllers/propiedadController.js:23-41 | the count query and the listing query agree: an enumeration of the owner's listings is as long as their number |
| Propiedades.EveryListingOnSomePage | controllers/propiedadController.js:9-21 | with at most 27 listings, each of the owner's listings appears on some accepted page |
| Propiedades.TenthPageUnreachable | controllers/propiedadController.js:9-14 | with 28 or more listings the paginator counts 10 or more pages, "10" is rejected, and the 28th listing appears on no accepted page |
| Propiedades.RejectedPageStillQueries | controllers/propiedadController.js:12-21 | the redirect for a rejected page does not stop the handler: it still queries with offset -3 for "0" and "", 27 for "10", NaN for a non-number or a missing page |
| Propiedades.Guardar | controllers/propiedadController.js:77-124 | failed validation re-renders the form with the errors and changes nothing; success adds exactly one listing under the new key, owned by the caller, unpublished, with empty image and the submitted fields, and redirects to its image step |
| Propiedades.AgregarImagenForm | controllers/propiedadController.js:126-151 | the image form is shown exactly when the listing exists, is unpublished and is the caller's; otherwise the same redirect to the caller's listings |
| Propiedades.SubirImagen | controllers/propiedadController.js:153-184 | a missing, published or foreign listing gets the same redirect and no change; with no uploaded file the error is only logged and nothing changes; otherwise only this listing changes: its image is the file name, it is published, fields and owner unchanged |
| Propiedades.UploadGuardsAgree | controllers/propiedadController.js:126-170 | the image form and the upload bounce exactly the same requests |
| Propiedades.NoDoublePublish | controllers/propiedadController.js:162-177 | after a successful upload any further upload on that listing, by anyone, is bounced and changes nothing |
| Propiedades.EditarForm | controllers/propiedadController.js:186-215 | the edit form is shown exactly to the owner of an existing listing |
| Propiedades.GuardarCambios | controllers/propiedadController.js:217-275 | invalid input re-renders the form before any lookup and changes nothing; a missing or foreign listing is bounced and changes nothing; the owner is redirected to their listings, and exactly the ten form fields are overwritten while image, publication and owner stay, and no other listing or message changes |
| Propiedades.Eliminar | controllers/propiedadController.js:277-299 | only the owner deletes; deletion removes exactly that key and nothing else; the owner is redirected only when the listing had an image name and its file was removed, otherwise the error escapes after the record is gone |
| Propiedades.DeletingDraftCrashes | controllers/propiedadController.js:277-299 | a draft that never received an image cannot be deleted cleanly: the removal names the uploads directory, so the handler fails after the record is gone, leaving the store as before the draft was created |
| Propiedades.CambiarEstado | controllers/propiedadController.js:302-324 | a non-owner changes nothing; the owner's toggle negates the publication flag of that listing only and answers JSON `resultado: true` |
| Propiedades.ToggleInvolution | controllers/propiedadController.js:317-319 | toggling twice restores the original store |
| Propiedades.ReopenAfterToggle | controllers/propiedadController.js:162-177 | a published listing refuses an upload, but once its owner hides it the upload succeeds again |
| Propiedades.TogglePublishesDraft | controllers/propiedadController.js:313-318 | a new draft can be made public by the toggle without an image: it then shows publicly with an empty image name |
| Propiedades.MostrarPropiedad | controllers/propiedadController.js:326-348 | a missing listing and an unpublished one both get the `/404` redirect; a published one is rendered |
| Propiedades.EnviarMensaje | controllers/propiedadController.js:350-391 | the store changes exactly when the listing exists, validation passes and there is a sender; then exactly one message about that listing from that sender is appended; an anonymous sender crashes without effect |
| Propiedades.InboxCounts | controllers/propiedadController.js:397-405 | selecting the messages about one listing keeps each of them exactly as often as it was stored and no other message |
| Propiedades.VerMensajes | controllers/propiedadController.js:394-422 | only the owner sees the inbox; it holds every message about the listing, each as often as it was sent, and no other; the shown list follows the store's order |
| Propiedades.OwnerOnlyMutation | controllers/propiedadController.js:153-391 | across all mutating handlers, a listing changes only by a request of its owner, ownership never changes hands, and messages are only appended |
| Usuarios.FindFrom | controllers/usuarioController.js:32 | a lookup returns the first row satisfying the condition, or none when no row does |
| Usuarios.FindByEmail | controllers/usuarioController.js:106 | the lookup by email finds a user with that email, and finds none exactly when no user has it |
| Usuarios.FindByToken | controllers/usuarioController.js:144 | the lookup by token finds a user holding that token, and finds none exactly when no user holds it |
| Usuarios.CheckedLength | controllers/usuarioController.js:85 | the password length the form check measures is at most the number of code points, and equals it exactly when the password holds no variation selector U+FE0E or U+FE0F |
| Usuarios.CheckedLengthAppend | controllers/usuarioController.js:85 | the measured length of a concatenation is the sum of the measured lengths |
| Usuarios.VariationSelectorNotCounted | controllers/usuarioController.js:248 | a six-code-point password ending in U+FE0F measures 5, so registration reports the short-password message and the reset form re-renders it without saving |
| Usuarios.RegistroErrors | controllers/usuarioController.js:83-88 | all four checks are collected: the list is empty exactly when the name is non-empty, the email is accepted, the password measures at least 6 under the length check (variation selectors not counted) and the repetition equals it, and the list holds exactly one message per failing check, that check's own, and no other |
| Usuarios.Registrar | controllers/usuarioController.js:81-138 | any validation failure or an email already registered changes nothing; otherwise exactly one unconfirmed user is added with the form's name and email, the hashed password and the fresh token |
| Usuarios.Confirmar | controllers/usuarioController.js:140-164 | an unknown token changes nothing; a match sets that user confirmed and the token to the empty string, nothing else |
| Usuarios.ConfirmarSingleUse | controllers/usuarioController.js:144-157 | confirming again with the same token fails and changes nothing |
| Usuarios.LoginErrors | controllers/usuarioController.js:16-19 | the login form is accepted exactly when the email is accepted and the password is non-empty |
| Usuarios.Autenticar | controllers/usuarioController.js:15-68 | login succeeds exactly when the form is valid and the user with that email exists, is confirmed and the password verifies; the session then carries that user's id and name and redirects to the caller's listings |
| Usuarios.AutenticarAsUser | controllers/usuarioController.js:32-66 | in a store with unique emails, logging in as a given user succeeds exactly when that user is confirmed and the password verifies; an unconfirmed user is refused whatever the password |
| Usuarios.ResetPassword | controllers/usuarioController.js:174-220 | a rejected email or an unknown one changes nothing; otherwise only that user's token is replaced by the fresh one |
| Usuarios.ResetRetiresOldToken | controllers/usuarioController.js:192-204 | after a reset request the user's previous token matches no user |
| Usuarios.ResetTokenConfirms | controllers/usuarioController.js:140-157 | the token column is shared: a reset token also confirms the account |
| Usuarios.ComprobarToken | controllers/usuarioController.js:222-244 | read-only; the new-password form is shown exactly when some user holds the token |
| Usuarios.NuevoPassword | controllers/usuarioController.js:246-276 | a password measuring under 6 (variation selectors not counted) re-renders the form and changes nothing; an unknown token crashes without changing anything; otherwise only that user changes: the password verifies against the new one and the token becomes NULL |
| Usuarios.ResetLinkSingleUse | controllers/usuarioController.js:264-270 | once the new password is stored the reset link no longer opens the form, and posting to it again crashes without effect |
| Usuarios.StepPreservesValid | controllers/usuarioController.js:81-276 | no request makes two users share an email or a live token |
| Usuarios.StepKeepsAccounts | controllers/usuarioController.js:81-276 | no request removes a user, changes an email or name, or takes back a confirmation |
| Usuarios.SignUpAndLogIn | controllers/usuarioController.js:15-164 | a newly registered account cannot log in; after confirmation the right password logs in with its id and name and a wrong one is refused |
| Js.ToNumber | src/js/mapaInicio.js:23-30 | `+value`: the empty option converts to 0, a one-digit value to that digit, and numbers are never negative |
| Js.NatTextRoundTrip | src/js/mapaInicio.js:24 | converting the decimal text of an id back to a number gives the id |
| Seqs.Filter | src/js/mapaInicio.js:33 | the result keeps only input elements that satisfy the predicate and is no longer than the input |
| Seqs.FilterIsSubsequence | src/js/mapaInicio.js:33 | the result is a subsequence of the input: order is preserved |
| Seqs.FilterCount | src/js/mapaInicio.js:33 | an element that satisfies the predicate occurs in the result exactly as often as in the input, any other not at all |
| MapaInicio.FiltrarPropiedades | src/js/mapaInicio.js:32-39 | every shown listing comes from the list and matches every active constraint: the selected category id and the selected price id |
| MapaInicio.FiltrarIsConjunction | src/js/mapaInicio.js:33-39 | the two filters in sequence equal one filter by the conjunction of both constraints |
| MapaInicio.FiltrarKeepsOrderAndMatches | src/js/mapaInicio.js:33-39 | the shown list is a subsequence of the input, so order is preserved, and contains every listing passing both constraints |
| MapaInicio.InactiveFiltersShowAll | src/js/mapaInicio.js:37-39 | with both filters '' , 0 or NaN the whole list is shown |
| MapaInicio.FiltrarIdempotent | src/js/mapaInicio.js:33 | filtering the shown list again changes nothing |
| MapaInicio.FiltrarCommutes | src/js/mapaInicio.js:33 | price then category gives the same list as category then price |
| MapaInicio.Cargar | src/js/mapaInicio.js:41-47 | the feed replaces the list and is shown as the filter would show it with both slots at their initial '', whatever the selects hold; the slots are kept |
| MapaInicio.LoadIgnoresFilters | src/js/mapaInicio.js:23-47 | a category chosen before the feed arrives is not applied to the first display: a listing of another category is shown |
| MapaInicio.EmptyOptionClearsCategoria | src/js/mapaInicio.js:23-26 | choosing the empty category option stores 0 and leaves only the price constraint |
| MapaInicio.OptionSelectsCategoria | src/js/mapaInicio.js:23-37 | choosing the option for category `c` shows a listing exactly when its category is `c` and it passes the price filter |
| MapaInicio.EmptyOptionClearsPrecio | src/js/mapaInicio.js:27-30 | choosing the empty price option stores 0 and leaves only the category constraint |
| MapaInicio.OptionSelectsPrecio | src/js/mapaInicio.js:27-39 | choosing the option for price range `c` shows a listing exactly when its price id is `c` and it passes the category filter |

Where the code and the application's written design disagree, the model
follows the code:

- The design describes distinct not-found and forbidden failures; every
  failed existence, publication or ownership guard of the owner's handlers
  produces the same redirect to `/mis-propiedades`. The public view and the
  inquiry send a missing listing to `/404` (`MostrarPropiedad`,
  `EnviarMensaje`).
- The design says only the image step publishes a listing. The visibility
  toggle publishes a draft that has no image (`TogglePublishesDraft`).
- The design says login failures are indistinguishable. The code renders
  different messages for an unknown email, an unconfirmed account and a
  wrong password.
- The design says completing a reset with an unknown token is an invalid
  token error. The code dereferences the missing user and crashes
  (`NuevoPassword`).
- The design has the dashboard ordered most recent first and the page
  clamped. The code has no ordering, accepts only pages 1 to 9, and goes on
  processing after redirecting a rejected page (`Admin`,
  `RejectedPageStillQueries`, `TenthPageUnreachable`).
- The design says a failed file removal does not fail deletion. The code
  awaits `unlink` outside any `try`, so the error escapes after the record
  is deleted and no redirect is sent (`Eliminar`). For a listing without an
  image the path is the uploads directory itself, which cannot be unlinked,
  so deleting such a listing always fails this way (`DeletingDraftCrashes`).
- The inquiry handler does not check that the listing is published, and it
  crashes for a visitor without a session after validation passes
  (`EnviarMensaje`).

## Left out

- Password hashing is symbolic: `Bcrypt(p)` stands for a salted bcrypt hash and
  verification is equality, so distinct passwords never collide. The hook that
  hashes at creation and `verificarPassword` are in model code that is not part
  of this model.
- Token generation and JWT signing are in helpers that are not part of this
  model. Fresh tokens are parameters with a precondition that they are
  non-empty and unused; the session is modelled by the claims it signs.
- Email dispatch after registration and reset is fire-and-forget I/O and is left out.
- Validation: `isEmail` is a parameter. The listing and inquiry validation rules
  live in route files that are not part of this model, so their outcome is an
  error list parameter.
- Database failures are left out; the successful path of each query is
  modelled. A `try` that catches such a failure and only logs it covers just
  `admin`'s count and listing queries, `guardar`'s `create`, the `save` in
  `subirImagen` and in `guardarCambios`, and `comprobarToken`'s lookup. The
  queries before those blocks (the category and price lists that re-render
  a rejected form in `guardar` and `guardarCambios`, and the `findByPk`
  lookups of `subirImagen` and `guardarCambios`) and every query of the
  other modelled handlers are outside any `try`, so a failure there escapes
  the handler.
- The database's type coercion of form fields is not modelled: fields are
  stored as submitted.
- Email and token comparison are exact string equality; the database's
  collation may compare them case-insensitively or ignore trailing spaces,
  under which a one-space route token would match the empty token that
  confirmation stores (`Live`, `ConfirmarSingleUse` and `ResetLinkSingleUse`
  rely on exact equality).
- The database's row order is an input to `Admin` (`order`), and a lookup returns
  the first matching user by id.
- Deleting a listing leaves its messages in place; what the database does to
  them depends on foreign-key settings in model code that is not part of this model.
- Templates, cookies, CSRF tokens, `esVendedor` and the page titles not needed
  to tell outcomes apart are left out; the upload middleware is reduced to the
  stored file name, and file removal to whether it succeeded.
- Js.ToNumber: only the empty string and decimal digit strings convert to
  numbers; whitespace, signs, fractions, exponents, hexadecimal and
  `Infinity` forms are treated as NaN. The values involved are query strings
  and option values rendered from ids.
- The map rendering (Leaflet markers, popups) and the `fetch` of the feed are
  left out; the feed's answer is the parameter of `Cargar`.
- `crear`, `formularioLogin`, `formularioRegistro`, `formularioOlvidePassword`
  and `cerrarSesion` only render a form or clear a cookie and are left out.
- Propiedades.VerMensajes: the database returns the messages in an order the
  query does not fix; the model shows them in the order the store holds them,
  so the subsequence clause holds only for that order. Which messages are
  shown, and how often, does not depend on the order.
- Concurrent requests are not modelled; each handler is one atomic step.
- The other controllers, route tables, server bootstrap and seed scripts are
  not part of this model.

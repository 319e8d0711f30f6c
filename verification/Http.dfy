/** What a request handler hands back to the web framework. */
module Http {
  import opened Types

  /** Redirect targets used by the handlers. */
  datatype Route =
    | Home                    // "/"
    | NotFound                // "/404"
    | MisPropiedades          // "/mis-propiedades"
    | MisPropiedadesPage1     // "/mis-propiedades?page=1"
    | AgregarImagen(id: ListingId)  // "/propiedades/agregar-imagen/:id"

  /** The identity a login signs into the session cookie. */
  datatype Claims = Claims(usuario: UserId, nombre: string)

  /** One constructor per template, carrying the data that distinguishes outcomes. */
  datatype View =
    | PropiedadesCrear(errors: seq<string>)
    | PropiedadesAgregarImagen(id: ListingId)
    | PropiedadesEditar(errors: seq<string>)
    | PropiedadesAdmin(items: seq<ListingId>, total: nat, offset: nat, page: nat, pages: nat)
    | PropiedadesMostrar(id: ListingId, errors: seq<string>)
    | PropiedadesMensajes(mensajes: seq<Message>)
    | AuthLogin(errors: seq<string>)
    | AuthRegistro(errors: seq<string>)
    | AuthOlvidePassword(errors: seq<string>)
    | AuthResetPassword(errors: seq<string>)
    | AuthConfirmarCuenta(pagina: string, error: bool)
    | TemplatesMensaje(pagina: string)

  datatype Response =
    | Render(view: View)
    | Redirect(to: Route)
    | Json(resultado: bool)
    | Next                                   // control passes to the next middleware
    | LoginRedirect(session: Claims, to: Route)  // sets the http-only session cookie, then redirects
    | Unanswered                             // an exception was caught and only logged
    | Crash                                  // an exception escaped the async handler
}

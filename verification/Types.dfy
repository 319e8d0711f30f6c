/** The persisted entities of the listings application: users, listings and
    the inquiry messages buyers send about a listing. */
module Types {

  datatype Option<T> = None | Some(value: T)

  /** Users are numbered by their auto-increment primary key. */
  type UserId = nat

  /** Listings are keyed by an opaque primary key. */
  type ListingId = nat

  /** A stored password digest. Hashing is symbolic: two digests are equal
      exactly when the passwords were equal. */
  datatype Digest = Bcrypt(plain: string)

  /** The user's one-time token column: SQL NULL, or a string (possibly empty).
      Confirmation stores the empty string; completing a reset stores NULL. */
  datatype TokenSlot = Null | Token(value: string)

  datatype User = User(
    nombre: string,
    email: string,
    password: Digest,
    confirmado: bool,
    token: TokenSlot)

  /** The ten fields of the listing form, as the request body carries them. */
  datatype Fields = Fields(
    titulo: string,
    descripcion: string,
    habitaciones: string,
    estacionamiento: string,
    wc: string,
    calle: string,
    lat: string,
    lng: string,
    precioId: string,
    categoriaId: string)

  datatype Listing = Listing(
    fields: Fields,
    usuarioId: UserId,
    publicado: bool,
    imagen: string)

  datatype Message = Message(mensaje: string, propiedadId: ListingId, usuarioId: UserId)
}

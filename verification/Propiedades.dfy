/** The listing handlers of the property controller. Each handler is one atomic
    step over the store: guards first, then at most one small mutation. */
module Propiedades {
  import opened Types
  import opened Http
  import Js
  import Seqs

  /** The rows the handlers touch: listings by key, and the append-only message table. */
  datatype Store = Store(listings: map<ListingId, Listing>, messages: seq<Message>)

  /** Listings per page of the owner's dashboard. */
  const Limit: nat := 3

  /** Where every failed existence, publication or ownership check sends the caller. */
  const Bounce: Response := Redirect(MisPropiedades)

  predicate Owns(s: Store, caller: UserId, id: ListingId) {
    id in s.listings && s.listings[id].usuarioId == caller
  }

  /** The three guards of the image step: the listing exists, is not yet
      published, and belongs to the caller. */
  predicate CanUpload(s: Store, caller: UserId, id: ListingId) {
    Owns(s, caller, id) && !s.listings[id].publicado
  }

  /** Nothing but listing `id` differs between `s` and `s'`. */
  predicate OthersUnchanged(s: Store, s': Store, id: ListingId) {
    && s'.messages == s.messages
    && s.listings.Keys - {id} == s'.listings.Keys - {id}
    && (forall k :: k in s.listings && k != id ==> k in s'.listings && s'.listings[k] == s.listings[k])
  }

  // ----------------------------------------------------------------------
  // admin: the owner's dashboard, three listings per page

  /** The page check `/^[1-9]$/.test(page)`; an absent page tests as "undefined". */
  predicate PageAccepted(page: Option<string>) {
    page.Some? && |page.value| == 1 && '1' <= page.value[0] <= '9'
  }

  function OwnedIds(s: Store, caller: UserId): set<ListingId> {
    set k | k in s.listings && s.listings[k].usuarioId == caller
  }

  predicate Distinct(q: seq<ListingId>) {
    forall i, j :: 0 <= i < j < |q| ==> q[i] != q[j]
  }

  /** `order` lists every id of `ids` exactly once: the order in which the
      database returns the caller's listings. */
  predicate Enumerates(order: seq<ListingId>, ids: set<ListingId>) {
    && Distinct(order)
    && (forall i :: 0 <= i < |order| ==> order[i] in ids)
    && (forall k :: k in ids ==> k in order)
  }

  function Min(a: int, b: int): int {
    if a <= b then a else b
  }

  /** Math.ceil(total / Limit). */
  function Pages(total: nat): (pages: nat)
    ensures total == 0 ==> pages == 0
    ensures total > 0 ==> (pages - 1) * Limit < total <= pages * Limit
  {
    (total + Limit - 1) / Limit
  }

  /** The response the client sees, paired with the offset the handler goes on to
      query with: a rejected page is redirected but processing does not stop. */
  function Admin(s: Store, caller: UserId, page: Option<string>, order: seq<ListingId>): (r: (Response, Js.Num))
    requires Enumerates(order, OwnedIds(s, caller))
    ensures !PageAccepted(page) ==> r.0 == Redirect(MisPropiedadesPage1)
    ensures PageAccepted(page) ==>
      && r.0.Render? && r.0.view.PropiedadesAdmin?
      && var v := r.0.view;
      && 1 <= v.page <= 9
      && Js.ToNumber(page.value) == Js.Finite(v.page)
      && v.offset == Limit * (v.page - 1)
      && r.1 == Js.Finite(v.offset)
      && v.total == |OwnedIds(s, caller)|
      && v.pages * Limit >= v.total
      && (v.pages > 0 ==> (v.pages - 1) * Limit < v.total)
      && |v.items| == (if v.offset < v.total then Min(Limit, v.total - v.offset) else 0)
      && (forall j :: 0 <= j < |v.items| ==> v.offset + j < |order| && v.items[j] == order[v.offset + j])
      && (forall j :: 0 <= j < |v.items| ==> Owns(s, caller, v.items[j]))
  {
    var offset := Js.Sub(Js.Mul(Js.ToNumberOrUndefined(page), Js.Finite(Limit)), Js.Finite(Limit));
    if !PageAccepted(page) then
      (Redirect(MisPropiedadesPage1), offset)
    else
      var p := Js.DigitValue(page.value[0]);
      var off: nat := p * Limit - Limit;
      var total := |OwnedIds(s, caller)|;
      EnumerationSize(order, OwnedIds(s, caller));
      var items := if off <= |order| then order[off..Min(off + Limit, |order|)] else [];
      (Render(PropiedadesAdmin(items, total, off, p, Pages(total))), offset)
  }

  function Elements(q: seq<ListingId>): set<ListingId> {
    set x | x in q
  }

  lemma {:induction false} DistinctCardinality(q: seq<ListingId>)
    requires Distinct(q)
    ensures |Elements(q)| == |q|
    decreases |q|
  {
    if |q| > 0 {
      DistinctCardinality(q[1..]);
      assert Elements(q) == {q[0]} + Elements(q[1..]);
      assert q[0] !in Elements(q[1..]);
    }
  }

  /** The count query and the listing query agree: an enumeration is as long as the set. */
  lemma EnumerationSize(order: seq<ListingId>, ids: set<ListingId>)
    requires Enumerates(order, ids)
    ensures |order| == |ids|
  {
    DistinctCardinality(order);
    assert Elements(order) == ids;
  }

  /** With at most 27 listings every listing is shown on some accepted page. */
  lemma EveryListingOnSomePage(s: Store, caller: UserId, order: seq<ListingId>, k: ListingId)
    requires Enumerates(order, OwnedIds(s, caller))
    requires |OwnedIds(s, caller)| <= 9 * Limit
    requires Owns(s, caller, k)
    ensures exists d :: '1' <= d <= '9' && k in Admin(s, caller, Some([d]), order).0.view.items
  {
    EnumerationSize(order, OwnedIds(s, caller));
    assert k in OwnedIds(s, caller);
    var i :| 0 <= i < |order| && order[i] == k;
    var p := i / Limit + 1;
    assert 1 <= p <= 9 && Limit * (p - 1) <= i < Limit * p;
    var d := Js.DigitChar(p);
    assert '1' <= d <= '9' && PageAccepted(Some([d]));
    var v := Admin(s, caller, Some([d]), order).0.view;
    assert v.page == p;
    assert v.offset <= i < v.offset + Limit && i < v.total;
    assert v.items[i - v.offset] == k;
    assert '1' <= d <= '9' && k in Admin(s, caller, Some([d]), order).0.view.items;
  }

  /** The paginator links to a tenth page once there are 28 listings, but the
      page check rejects "10", so the 28th listing is on no page that renders. */
  lemma TenthPageUnreachable(s: Store, caller: UserId, order: seq<ListingId>, page: Option<string>)
    requires Enumerates(order, OwnedIds(s, caller))
    requires |order| > 9 * Limit
    ensures Pages(|OwnedIds(s, caller)|) >= 10
    ensures !PageAccepted(Some(Js.NatText(10)))
    ensures PageAccepted(page) ==> order[9 * Limit] !in Admin(s, caller, page, order).0.view.items
  {
    EnumerationSize(order, OwnedIds(s, caller));
    if PageAccepted(page) {
      var v := Admin(s, caller, page, order).0.view;
      forall j | 0 <= j < |v.items|
        ensures v.items[j] != order[9 * Limit]
      {
        assert v.offset + j < 9 * Limit;
      }
    }
  }

  /** A rejected page does not stop the handler: it still queries with the
      offset `page * limit - limit` computes. */
  lemma RejectedPageStillQueries(s: Store, caller: UserId, order: seq<ListingId>)
    requires Enumerates(order, OwnedIds(s, caller))
    ensures Admin(s, caller, Some("0"), order) == (Redirect(MisPropiedadesPage1), Js.Finite(-3))
    ensures Admin(s, caller, Some("10"), order) == (Redirect(MisPropiedadesPage1), Js.Finite(27))
    ensures Admin(s, caller, Some(""), order) == (Redirect(MisPropiedadesPage1), Js.Finite(-3))
    ensures Admin(s, caller, Some("x"), order) == (Redirect(MisPropiedadesPage1), Js.NaN)
    ensures Admin(s, caller, None, order) == (Redirect(MisPropiedadesPage1), Js.NaN)
  {
  }

  // ----------------------------------------------------------------------
  // guardar: create a draft listing

  function Guardar(s: Store, caller: UserId, errors: seq<string>, f: Fields, newId: ListingId): (r: (Response, Store))
    requires newId !in s.listings
    ensures |errors| > 0 ==> r == (Render(PropiedadesCrear(errors)), s)
    ensures |errors| == 0 ==>
      && r.0 == Redirect(AgregarImagen(newId))
      && OthersUnchanged(s, r.1, newId)
      && r.1.listings.Keys == s.listings.Keys + {newId}
      && |r.1.listings| == |s.listings| + 1
      && r.1.listings[newId].fields == f
      && r.1.listings[newId].usuarioId == caller
      && !r.1.listings[newId].publicado
      && r.1.listings[newId].imagen == ""
  {
    if |errors| > 0 then
      (Render(PropiedadesCrear(errors)), s)
    else
      (Redirect(AgregarImagen(newId)), s.(listings := s.listings[newId := Listing(f, caller, false, "")]))
  }

  // ----------------------------------------------------------------------
  // agregarImagen / subirImagen: the image step that publishes a draft

  function AgregarImagenForm(s: Store, caller: UserId, id: ListingId): (r: Response)
    ensures CanUpload(s, caller, id) <==> r == Render(PropiedadesAgregarImagen(id))
    ensures !CanUpload(s, caller, id) <==> r == Bounce
  {
    if id !in s.listings then Bounce
    else if s.listings[id].publicado then Bounce
    else if caller != s.listings[id].usuarioId then Bounce
    else Render(PropiedadesAgregarImagen(id))
  }

  /** `file` is the name the upload middleware gave the stored file, if a file came. */
  function SubirImagen(s: Store, caller: UserId, id: ListingId, file: Option<string>): (r: (Response, Store))
    ensures !CanUpload(s, caller, id) ==> r == (Bounce, s)
    ensures CanUpload(s, caller, id) && file.None? ==> r == (Unanswered, s)
    ensures CanUpload(s, caller, id) && file.Some? ==>
      && r.0 == Next
      && OthersUnchanged(s, r.1, id)
      && id in r.1.listings
      && r.1.listings[id].fields == s.listings[id].fields
      && r.1.listings[id].usuarioId == s.listings[id].usuarioId
      && r.1.listings[id].imagen == file.value
      && r.1.listings[id].publicado
  {
    if id !in s.listings then (Bounce, s)
    else if s.listings[id].publicado then (Bounce, s)
    else if caller != s.listings[id].usuarioId then (Bounce, s)
    else match file
      case None => (Unanswered, s)
      case Some(name) =>
        (Next, s.(listings := s.listings[id := s.listings[id].(imagen := name, publicado := true)]))
  }

  /** The form and the upload apply the same guards. */
  lemma UploadGuardsAgree(s: Store, caller: UserId, id: ListingId, name: string)
    ensures AgregarImagenForm(s, caller, id) == Bounce <==> SubirImagen(s, caller, id, Some(name)) == (Bounce, s)
    ensures AgregarImagenForm(s, caller, id) != Bounce <==> SubirImagen(s, caller, id, Some(name)).0 == Next
  {
  }

  /** Once an upload has published a listing, any further upload is bounced and
      changes nothing. */
  lemma NoDoublePublish(s: Store, caller: UserId, id: ListingId, name: string, other: UserId, again: Option<string>)
    requires SubirImagen(s, caller, id, Some(name)).0 == Next
    ensures var s1 := SubirImagen(s, caller, id, Some(name)).1;
      SubirImagen(s1, other, id, again) == (Bounce, s1)
  {
  }

  // ----------------------------------------------------------------------
  // editar / guardarCambios: edit the ten form fields

  function EditarForm(s: Store, caller: UserId, id: ListingId): (r: Response)
    ensures Owns(s, caller, id) <==> r == Render(PropiedadesEditar([]))
    ensures !Owns(s, caller, id) <==> r == Bounce
  {
    if id !in s.listings then Bounce
    else if s.listings[id].usuarioId != caller then Bounce
    else Render(PropiedadesEditar([]))
  }

  /** Validation runs before the lookup, so invalid input is re-rendered even for
      a listing that does not exist or is not the caller's. */
  function GuardarCambios(s: Store, caller: UserId, errors: seq<string>, id: ListingId, f: Fields): (r: (Response, Store))
    ensures |errors| > 0 ==> r == (Render(PropiedadesEditar(errors)), s)
    ensures |errors| == 0 && !Owns(s, caller, id) ==> r == (Bounce, s)
    ensures |errors| == 0 && Owns(s, caller, id) ==>
      && r.0 == Redirect(MisPropiedades)
      && OthersUnchanged(s, r.1, id)
      && id in r.1.listings
      && r.1.listings[id].fields == f
      && r.1.listings[id].usuarioId == s.listings[id].usuarioId
      && r.1.listings[id].publicado == s.listings[id].publicado
      && r.1.listings[id].imagen == s.listings[id].imagen
  {
    if |errors| > 0 then (Render(PropiedadesEditar(errors)), s)
    else if id !in s.listings then (Bounce, s)
    else if s.listings[id].usuarioId != caller then (Bounce, s)
    else (Redirect(MisPropiedades), s.(listings := s.listings[id := s.listings[id].(fields := f)]))
  }

  // ----------------------------------------------------------------------
  // eliminar: delete the record, then the image file

  /** `unlinked` is whether the file system removed the file the listing names.
      A listing without an image names the uploads directory itself, which
      cannot be unlinked. Either way the record is destroyed first, so a failed
      removal escapes the handler after the listing is already gone. */
  function Eliminar(s: Store, caller: UserId, id: ListingId, unlinked: bool): (r: (Response, Store))
    ensures !Owns(s, caller, id) ==> r == (Bounce, s)
    ensures Owns(s, caller, id) ==>
      && r.0 == (if unlinked && s.listings[id].imagen != "" then Redirect(MisPropiedades) else Crash)
      && OthersUnchanged(s, r.1, id)
      && id !in r.1.listings
      && r.1.listings.Keys == s.listings.Keys - {id}
  {
    if id !in s.listings then (Bounce, s)
    else if s.listings[id].usuarioId != caller then (Bounce, s)
    else
      var removed := unlinked && s.listings[id].imagen != "";
      var s' := s.(listings := s.listings - {id});
      (if removed then Redirect(MisPropiedades) else Crash, s')
  }

  /** Deleting a draft that never received an image always fails after the
      record is gone, whatever the file system does. */
  lemma DeletingDraftCrashes(s: Store, caller: UserId, f: Fields, newId: ListingId, unlinked: bool)
    requires newId !in s.listings
    ensures var s1 := Guardar(s, caller, [], f, newId).1;
      && Eliminar(s1, caller, newId, unlinked).0 == Crash
      && Eliminar(s1, caller, newId, unlinked).1 == s
  {
    var s1 := Guardar(s, caller, [], f, newId).1;
    assert s1.listings - {newId} == s.listings;
  }

  // ----------------------------------------------------------------------
  // cambiarEstado: toggle visibility

  function CambiarEstado(s: Store, caller: UserId, id: ListingId): (r: (Response, Store))
    ensures !Owns(s, caller, id) ==> r == (Bounce, s)
    ensures Owns(s, caller, id) ==>
      && r.0 == Json(true)
      && OthersUnchanged(s, r.1, id)
      && id in r.1.listings
      && r.1.listings[id].publicado == !s.listings[id].publicado
      && r.1.listings[id].fields == s.listings[id].fields
      && r.1.listings[id].usuarioId == s.listings[id].usuarioId
      && r.1.listings[id].imagen == s.listings[id].imagen
  {
    if id !in s.listings then (Bounce, s)
    else if s.listings[id].usuarioId != caller then (Bounce, s)
    else
      var l := s.listings[id];
      (Json(true), s.(listings := s.listings[id := l.(publicado := !l.publicado)]))
  }

  /** Toggling twice restores the store, whoever the caller is. */
  lemma ToggleInvolution(s: Store, caller: UserId, id: ListingId)
    ensures CambiarEstado(CambiarEstado(s, caller, id).1, caller, id).1 == s
  {
  }

  /** Toggling off reopens the image step: a published listing the owner hides
      can be given a new image, which publishes it again. */
  lemma ReopenAfterToggle(s: Store, caller: UserId, id: ListingId, name: string)
    requires Owns(s, caller, id) && s.listings[id].publicado
    ensures SubirImagen(s, caller, id, Some(name)).1 == s
    ensures SubirImagen(CambiarEstado(s, caller, id).1, caller, id, Some(name)).0 == Next
  {
  }

  /** The toggle does not require an image: a fresh draft becomes public with
      an empty image name without ever passing the upload step. */
  lemma TogglePublishesDraft(s: Store, caller: UserId, f: Fields, newId: ListingId)
    requires newId !in s.listings
    ensures var s1 := Guardar(s, caller, [], f, newId).1;
      var s2 := CambiarEstado(s1, caller, newId).1;
      && MostrarPropiedad(s1, newId) == Redirect(NotFound)
      && s2.listings[newId].publicado && s2.listings[newId].imagen == ""
      && MostrarPropiedad(s2, newId) == Render(PropiedadesMostrar(newId, []))
  {
  }

  // ----------------------------------------------------------------------
  // mostrarPropiedad, enviarMensaje, verMensajes

  /** The public view: a missing listing and an unpublished one get the same answer. */
  function MostrarPropiedad(s: Store, id: ListingId): (r: Response)
    ensures r == Redirect(NotFound) <==> !(id in s.listings && s.listings[id].publicado)
    ensures r != Redirect(NotFound) ==> r == Render(PropiedadesMostrar(id, []))
  {
    if id !in s.listings || !s.listings[id].publicado then Redirect(NotFound)
    else Render(PropiedadesMostrar(id, []))
  }

  /** `sender` is the session's user, absent for an anonymous visitor. The
      listing is not required to be published. */
  function EnviarMensaje(s: Store, sender: Option<UserId>, id: ListingId, errors: seq<string>, mensaje: string): (r: (Response, Store))
    ensures id !in s.listings ==> r == (Redirect(NotFound), s)
    ensures id in s.listings && |errors| > 0 ==> r == (Render(PropiedadesMostrar(id, errors)), s)
    ensures id in s.listings && |errors| == 0 && sender.None? ==> r == (Crash, s)
    ensures r.1 != s <==> id in s.listings && |errors| == 0 && sender.Some?
    ensures r.1 != s ==>
      && r.0 == Redirect(Home)
      && r.1.listings == s.listings
      && |r.1.messages| == |s.messages| + 1
      && r.1.messages[..|s.messages|] == s.messages
      && r.1.messages[|s.messages|..] == [Message(mensaje, id, sender.value)]
  {
    if id !in s.listings then (Redirect(NotFound), s)
    else if |errors| > 0 then (Render(PropiedadesMostrar(id, errors)), s)
    else match sender
      case None => (Crash, s)
      case Some(u) =>
        var s' := s.(messages := s.messages + [Message(mensaje, id, u)]);
        assert |s'.messages| > |s.messages|;
        (Redirect(Home), s')
  }

  function About(id: ListingId): Message -> bool {
    (m: Message) => m.propiedadId == id
  }

  /** Every message about `id` is kept as often as it was stored; no other is kept. */
  lemma {:induction false} InboxCounts(msgs: seq<Message>, id: ListingId)
    ensures forall m :: multiset(Seqs.Filter(msgs, About(id)))[m] == if m.propiedadId == id then multiset(msgs)[m] else 0
  {
    forall m
      ensures multiset(Seqs.Filter(msgs, About(id)))[m] == if m.propiedadId == id then multiset(msgs)[m] else 0
    {
      Seqs.FilterCount(msgs, About(id), m);
    }
  }

  /** The owner's inbox for one listing: every message about it, each as often
      as it was sent, and nothing else. The messages are taken in the order the
      store holds them. */
  function VerMensajes(s: Store, caller: UserId, id: ListingId): (r: Response)
    ensures !Owns(s, caller, id) <==> r == Bounce
    ensures Owns(s, caller, id) ==>
      && r.Render? && r.view.PropiedadesMensajes?
      && (forall m :: multiset(r.view.mensajes)[m] == if m.propiedadId == id then multiset(s.messages)[m] else 0)
      && (forall i :: 0 <= i < |r.view.mensajes| ==> r.view.mensajes[i].propiedadId == id)
      && (forall i :: 0 <= i < |s.messages| && s.messages[i].propiedadId == id ==> s.messages[i] in r.view.mensajes)
      && Seqs.IsSubsequence(r.view.mensajes, s.messages)
  {
    if id !in s.listings then Bounce
    else if s.listings[id].usuarioId != caller then Bounce
    else
      InboxCounts(s.messages, id);
      Seqs.FilterComplete(s.messages, About(id));
      Seqs.FilterIsSubsequence(s.messages, About(id));
      Render(PropiedadesMensajes(Seqs.Filter(s.messages, About(id))))
  }

  // ----------------------------------------------------------------------
  // all mutating handlers together

  datatype Request =
    | GuardarReq(caller: UserId, errors: seq<string>, fields: Fields, newId: ListingId)
    | SubirImagenReq(caller: UserId, id: ListingId, file: Option<string>)
    | GuardarCambiosReq(caller: UserId, errors: seq<string>, id: ListingId, fields: Fields)
    | EliminarReq(caller: UserId, id: ListingId, unlinked: bool)
    | CambiarEstadoReq(caller: UserId, id: ListingId)
    | EnviarMensajeReq(sender: Option<UserId>, id: ListingId, errors: seq<string>, mensaje: string)

  /** A freshly generated primary key is not in use. */
  predicate Admissible(s: Store, req: Request) {
    req.GuardarReq? ==> req.newId !in s.listings
  }

  function Step(s: Store, req: Request): (Response, Store)
    requires Admissible(s, req)
  {
    match req
    case GuardarReq(c, e, f, n) => Guardar(s, c, e, f, n)
    case SubirImagenReq(c, id, file) => SubirImagen(s, c, id, file)
    case GuardarCambiosReq(c, e, id, f) => GuardarCambios(s, c, e, id, f)
    case EliminarReq(c, id, u) => Eliminar(s, c, id, u)
    case CambiarEstadoReq(c, id) => CambiarEstado(s, c, id)
    case EnviarMensajeReq(u, id, e, m) => EnviarMensaje(s, u, id, e, m)
  }

  /** Whether `req` is made by the owner `u` of a listing through a handler that can change it. */
  predicate ActsAsOwner(req: Request, u: UserId) {
    !req.EnviarMensajeReq? && req.caller == u
  }

  /** No request touches a listing unless its owner makes it. */
  lemma StepTouchesOnlyOwn(s: Store, req: Request)
    requires Admissible(s, req)
    ensures var s' := Step(s, req).1;
      forall k :: k in s.listings && !ActsAsOwner(req, s.listings[k].usuarioId) ==>
        k in s'.listings && s'.listings[k] == s.listings[k]
  {
    match req
    case GuardarReq(_, _, _, _) =>
    case SubirImagenReq(_, _, _) =>
    case GuardarCambiosReq(_, _, _, _) =>
    case EliminarReq(_, _, _) =>
    case CambiarEstadoReq(_, _) =>
    case EnviarMensajeReq(_, _, _, _) =>
  }

  /** No listing changes hands. */
  lemma StepKeepsOwners(s: Store, req: Request)
    requires Admissible(s, req)
    ensures var s' := Step(s, req).1;
      forall k :: k in s.listings && k in s'.listings ==>
        s'.listings[k].usuarioId == s.listings[k].usuarioId
  {
    match req
    case GuardarReq(_, _, _, _) =>
    case SubirImagenReq(_, _, _) =>
    case GuardarCambiosReq(_, _, _, _) =>
    case EliminarReq(_, _, _) =>
    case CambiarEstadoReq(_, _) =>
    case EnviarMensajeReq(_, _, _, _) =>
  }

  /** Messages are only appended. */
  lemma StepAppendsMessages(s: Store, req: Request)
    requires Admissible(s, req)
    ensures var s' := Step(s, req).1;
      |s.messages| <= |s'.messages| && s'.messages[..|s.messages|] == s.messages
  {
    match req
    case GuardarReq(_, _, _, _) =>
    case SubirImagenReq(_, _, _) =>
    case GuardarCambiosReq(_, _, _, _) =>
    case EliminarReq(_, _, _) =>
    case CambiarEstadoReq(_, _) =>
    case EnviarMensajeReq(_, _, _, _) =>
  }

  /** Owner-only mutation: no request touches a listing unless its owner makes
      it; no listing ever changes hands; messages are only appended. */
  lemma OwnerOnlyMutation(s: Store, req: Request)
    requires Admissible(s, req)
    ensures var s' := Step(s, req).1;
      && (forall k :: k in s.listings && !ActsAsOwner(req, s.listings[k].usuarioId) ==>
            k in s'.listings && s'.listings[k] == s.listings[k])
      && (forall k :: k in s.listings && k in s'.listings ==>
            s'.listings[k].usuarioId == s.listings[k].usuarioId)
      && |s.messages| <= |s'.messages| && s'.messages[..|s.messages|] == s.messages
  {
    StepTouchesOnlyOwn(s, req);
    StepKeepsOwners(s, req);
    StepAppendsMessages(s, req);
  }
}

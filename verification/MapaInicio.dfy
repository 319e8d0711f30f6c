/** The home-page map's category and price filters. The listings come from the
    JSON feed; each select's change handler stores `+value` in its filter slot
    and re-filters the whole list. */
module MapaInicio {
  import Js
  import Seqs

  /** A listing as the feed delivers it; coordinates and names are opaque. */
  datatype Propiedad = Propiedad(
    id: nat,
    titulo: string,
    imagen: string,
    lat: string,
    lng: string,
    categoriaId: int,
    precioId: int)

  /** A filter slot holds '' until its select first changes, then a number. */
  datatype FilterValue = Blank | Number(n: Js.Num)

  datatype Filtros = Filtros(categoria: FilterValue, precio: FilterValue)

  const Inicial: Filtros := Filtros(Blank, Blank)

  /** JavaScript truthiness of a slot: '', 0 and NaN are falsy. A falsy slot
      imposes no constraint. */
  predicate Truthy(v: FilterValue) {
    v.Number? && v.n.Finite? && v.n.value != 0
  }

  /** `x === v` for a number `x`; NaN equals nothing. */
  predicate StrictEquals(x: int, v: FilterValue) {
    v.Number? && v.n == Js.Finite(x)
  }

  predicate FiltrarCategoria(f: Filtros, p: Propiedad) {
    if Truthy(f.categoria) then StrictEquals(p.categoriaId, f.categoria) else true
  }

  predicate FiltrarPrecio(f: Filtros, p: Propiedad) {
    if Truthy(f.precio) then StrictEquals(p.precioId, f.precio) else true
  }

  function PorCategoria(f: Filtros): Propiedad -> bool {
    p => FiltrarCategoria(f, p)
  }

  function PorPrecio(f: Filtros): Propiedad -> bool {
    p => FiltrarPrecio(f, p)
  }

  /** Both active constraints at once. */
  function Ambos(f: Filtros): Propiedad -> bool {
    p => FiltrarCategoria(f, p) && FiltrarPrecio(f, p)
  }

  /** What the map shows: the category filter, then the price filter. */
  function FiltrarPropiedades(ps: seq<Propiedad>, f: Filtros): (r: seq<Propiedad>)
    ensures |r| <= |ps|
    ensures forall i :: 0 <= i < |r| ==> r[i] in ps
    ensures forall i :: 0 <= i < |r| ==> Truthy(f.categoria) ==> f.categoria == Number(Js.Finite(r[i].categoriaId))
    ensures forall i :: 0 <= i < |r| ==> Truthy(f.precio) ==> f.precio == Number(Js.Finite(r[i].precioId))
  {
    Seqs.Filter(Seqs.Filter(ps, PorCategoria(f)), PorPrecio(f))
  }

  /** The two filters in sequence are one filter by their conjunction. */
  lemma FiltrarIsConjunction(ps: seq<Propiedad>, f: Filtros)
    ensures FiltrarPropiedades(ps, f) == Seqs.Filter(ps, Ambos(f))
  {
    Seqs.FilterConjunction(ps, PorCategoria(f), PorPrecio(f), Ambos(f));
  }

  /** The shown list keeps the input's order and misses no listing that
      passes both filters. */
  lemma FiltrarKeepsOrderAndMatches(ps: seq<Propiedad>, f: Filtros)
    ensures Seqs.IsSubsequence(FiltrarPropiedades(ps, f), ps)
    ensures forall i :: 0 <= i < |ps| && FiltrarCategoria(f, ps[i]) && FiltrarPrecio(f, ps[i]) ==>
      ps[i] in FiltrarPropiedades(ps, f)
  {
    FiltrarIsConjunction(ps, f);
    Seqs.FilterIsSubsequence(ps, Ambos(f));
    Seqs.FilterComplete(ps, Ambos(f));
  }

  /** With both slots falsy every listing is shown. */
  lemma InactiveFiltersShowAll(ps: seq<Propiedad>, f: Filtros)
    requires !Truthy(f.categoria) && !Truthy(f.precio)
    ensures FiltrarPropiedades(ps, f) == ps
  {
    Seqs.FilterKeepsAll(ps, PorCategoria(f));
    Seqs.FilterKeepsAll(ps, PorPrecio(f));
  }

  lemma FiltrarIdempotent(ps: seq<Propiedad>, f: Filtros)
    ensures FiltrarPropiedades(FiltrarPropiedades(ps, f), f) == FiltrarPropiedades(ps, f)
  {
    var r := FiltrarPropiedades(ps, f);
    FiltrarIsConjunction(ps, f);
    FiltrarIsConjunction(r, f);
    Seqs.FilterIdempotent(ps, Ambos(f));
  }

  /** Filtering by price first gives the same list. */
  lemma FiltrarCommutes(ps: seq<Propiedad>, f: Filtros)
    ensures Seqs.Filter(Seqs.Filter(ps, PorPrecio(f)), PorCategoria(f)) == FiltrarPropiedades(ps, f)
  {
    Seqs.FilterCommutes(ps, PorCategoria(f), PorPrecio(f));
  }

  // ----------------------------------------------------------------------
  // the page's state and its event handlers

  datatype MapState = MapState(propiedades: seq<Propiedad>, filtros: Filtros)

  /** The feed's answer replaces the list and is shown as if no select had
      changed: the stored filter slots are kept but not applied. */
  function Cargar(st: MapState, feed: seq<Propiedad>): (r: (seq<Propiedad>, MapState))
    ensures r.0 == FiltrarPropiedades(feed, Inicial)
    ensures r.1.propiedades == feed && r.1.filtros == st.filtros
  {
    InactiveFiltersShowAll(feed, Inicial);
    (feed, st.(propiedades := feed))
  }

  /** A select changed before the feed arrived is ignored by the first display:
      the map shows a listing that the stored category filter excludes. */
  lemma LoadIgnoresFilters()
    ensures var p := Propiedad(1, "casa", "a.jpg", "7.9", "-80.4", 2, 1);
      var st := CambiarCategoria(MapState([], Inicial), "1").1;
      && st.filtros.categoria == Number(Js.Finite(1))
      && Cargar(st, [p]).0 == [p]
      && FiltrarPropiedades([p], st.filtros) == []
      && Cargar(st, [p]).0 != FiltrarPropiedades([p], Cargar(st, [p]).1.filtros)
  {
    var p := Propiedad(1, "casa", "a.jpg", "7.9", "-80.4", 2, 1);
    var st := CambiarCategoria(MapState([], Inicial), "1").1;
    assert Js.DecimalValue("1") == 1 by {
      assert "1"[..0] == "";
    }
    assert !PorCategoria(st.filtros)(p);
    assert Seqs.Filter([p], PorCategoria(st.filtros)) == [];
  }

  /** The category select changed to `value`; returns what the map then shows. */
  function CambiarCategoria(st: MapState, value: string): (r: (seq<Propiedad>, MapState))
    ensures r.1.propiedades == st.propiedades
    ensures r.1.filtros == st.filtros.(categoria := Number(Js.ToNumber(value)))
    ensures r.0 == FiltrarPropiedades(st.propiedades, r.1.filtros)
  {
    var f := st.filtros.(categoria := Number(Js.ToNumber(value)));
    (FiltrarPropiedades(st.propiedades, f), st.(filtros := f))
  }

  /** The price select changed to `value`; returns what the map then shows. */
  function CambiarPrecio(st: MapState, value: string): (r: (seq<Propiedad>, MapState))
    ensures r.1.propiedades == st.propiedades
    ensures r.1.filtros == st.filtros.(precio := Number(Js.ToNumber(value)))
    ensures r.0 == FiltrarPropiedades(st.propiedades, r.1.filtros)
  {
    var f := st.filtros.(precio := Number(Js.ToNumber(value)));
    (FiltrarPropiedades(st.propiedades, f), st.(filtros := f))
  }

  /** Choosing the empty option stores 0, which switches the category filter off:
      only the price constraint remains. */
  lemma EmptyOptionClearsCategoria(st: MapState)
    ensures CambiarCategoria(st, "").1.filtros.categoria == Number(Js.Finite(0))
    ensures CambiarCategoria(st, "").0 == Seqs.Filter(st.propiedades, PorPrecio(st.filtros))
  {
    var f := CambiarCategoria(st, "").1.filtros;
    Seqs.FilterKeepsAll(st.propiedades, PorCategoria(f));
    Seqs.FilterExtensional(st.propiedades, PorPrecio(f), PorPrecio(st.filtros));
  }

  /** Choosing the option rendered for category `c` (its value is `String(c)`)
      shows exactly the listings of that category that pass the price filter. */
  lemma OptionSelectsCategoria(st: MapState, c: nat, i: nat)
    requires c != 0
    requires i < |st.propiedades|
    ensures var f := CambiarCategoria(st, Js.NatText(c)).1.filtros;
      && f.categoria == Number(Js.Finite(c))
      && (st.propiedades[i] in CambiarCategoria(st, Js.NatText(c)).0 <==>
            st.propiedades[i].categoriaId == c && FiltrarPrecio(f, st.propiedades[i]))
  {
    Js.NatTextRoundTrip(c);
    var r := CambiarCategoria(st, Js.NatText(c));
    FiltrarKeepsOrderAndMatches(st.propiedades, r.1.filtros);
  }

  /** Choosing the empty price option stores 0, which switches the price filter
      off: only the category constraint remains. */
  lemma EmptyOptionClearsPrecio(st: MapState)
    ensures CambiarPrecio(st, "").1.filtros.precio == Number(Js.Finite(0))
    ensures CambiarPrecio(st, "").0 == Seqs.Filter(st.propiedades, PorCategoria(st.filtros))
  {
    var f := CambiarPrecio(st, "").1.filtros;
    var kept := Seqs.Filter(st.propiedades, PorCategoria(f));
    Seqs.FilterKeepsAll(kept, PorPrecio(f));
    Seqs.FilterExtensional(st.propiedades, PorCategoria(f), PorCategoria(st.filtros));
  }

  /** Choosing the option rendered for price range `c` shows exactly the
      listings in that range that pass the category filter. */
  lemma OptionSelectsPrecio(st: MapState, c: nat, i: nat)
    requires c != 0
    requires i < |st.propiedades|
    ensures var f := CambiarPrecio(st, Js.NatText(c)).1.filtros;
      && f.precio == Number(Js.Finite(c))
      && (st.propiedades[i] in CambiarPrecio(st, Js.NatText(c)).0 <==>
            st.propiedades[i].precioId == c && FiltrarCategoria(f, st.propiedades[i]))
  {
    Js.NatTextRoundTrip(c);
    var r := CambiarPrecio(st, Js.NatText(c));
    FiltrarKeepsOrderAndMatches(st.propiedades, r.1.filtros);
  }
}

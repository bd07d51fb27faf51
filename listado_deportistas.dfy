/**
 * The athletes' list screen: the search over the loaded page, the
 * previous/next page buttons, and the edit dialog, which joins the stored
 * names into one full-name field, shows the age, and splits the name again
 * on saving. Requests to the backend are parameters and results.
 */
module ListadoDeportistas {
  import opened Wrappers
  import opened Text
  import opened Listas
  import opened Fechas

  /** An athlete as the list endpoint returns it. */
  datatype Deportista = Deportista(
    id: string, nombres: string, apellidos: string, numeroDocumento: string,
    fechaNacimiento: Option<string>, telefono: Option<string>, email: Option<string>,
    direccion: Option<string>, tipoDeporte: Option<string>)

  // ---------------------------------------------------------------------
  // Full name
  // ---------------------------------------------------------------------

  /** The name split on saving: the trimmed text split on single spaces;
      the last piece is the surname, the pieces before it joined by spaces
      are the given names, or the only piece when there is no other. */
  function DividirNombre(nombreCompleto: string): (r: (string, string))
  {
    var partes := Split(JsTrim(nombreCompleto), ' ');
    var antes := Join(partes[..|partes| - 1], ' ');
    (if antes != "" then antes else partes[0], partes[|partes| - 1])
  }

  /** A one-word name fills both fields with that word. */
  lemma DividirNombreUnaPalabra(nombreCompleto: string)
    requires ' ' !in JsTrim(nombreCompleto)
    ensures DividirNombre(nombreCompleto) == (JsTrim(nombreCompleto), JsTrim(nombreCompleto))
  {
  }

  /** With several words, the surname is the last word and the given names
      are everything before the last space: nothing is lost. */
  lemma DividirNombreVarias(nombreCompleto: string)
    requires ' ' in JsTrim(nombreCompleto)
    ensures DividirNombre(nombreCompleto).0 != "" && DividirNombre(nombreCompleto).1 != ""
    ensures ' ' !in DividirNombre(nombreCompleto).1
    ensures DividirNombre(nombreCompleto).0 + " " + DividirNombre(nombreCompleto).1 == JsTrim(nombreCompleto)
  {
    var t := JsTrim(nombreCompleto);
    var partes := Split(t, ' ');
    var n := |partes|;
    var primeras := partes[..n - 1];
    var ultima := partes[n - 1];
    assert primeras + [ultima] == partes;
    JoinLast(primeras, ultima, ' ');
    var antes := Join(primeras, ' ');
    assert t == antes + [' '] + ultima;
    assert partes[0] != "" by {
      assert t == partes[0] + [' '] + Join(partes[1..], ' ');
      assert t[|partes[0]|] == ' ';
      assert !IsJsSpace(t[0]);
    }
    JoinFirst(primeras, ' ');
    assert ultima != "" by {
      assert !IsJsSpace(t[|t| - 1]);
    }
  }

  /** Opening the editor joins the names with a space; saving it unchanged
      gives back the same names whenever the surname is one word and the
      given names do not start with white space. */
  lemma DividirNombreRoundTrip(nombres: string, apellidos: string)
    requires nombres != "" && !IsJsSpace(nombres[0])
    requires apellidos != "" && forall i :: 0 <= i < |apellidos| ==> !IsJsSpace(apellidos[i])
    ensures DividirNombre(nombres + " " + apellidos) == (nombres, apellidos)
  {
    var t := nombres + " " + apellidos;
    TrimNone(t, IsJsSpace);
    assert ' ' !in apellidos by {
      assert IsJsSpace(' ');
    }
    var partes := Split(nombres, ' ') + [apellidos];
    JoinLast(Split(nombres, ' '), apellidos, ' ');
    SplitJoin(partes, ' ');
    assert Split(t, ' ') == partes;
    assert partes[..|partes| - 1] == Split(nombres, ' ');
  }

  /** A two-word surname does not survive the round trip: its first word
      moves to the given names. */
  lemma ApellidoCompuesto(nombres: string, apellido1: string, apellido2: string)
    requires nombres != "" && !IsJsSpace(nombres[0])
    requires apellido1 != "" && forall i :: 0 <= i < |apellido1| ==> !IsJsSpace(apellido1[i])
    requires apellido2 != "" && forall i :: 0 <= i < |apellido2| ==> !IsJsSpace(apellido2[i])
    ensures DividirNombre(nombres + " " + (apellido1 + " " + apellido2)) == (nombres + " " + apellido1, apellido2)
  {
    assert nombres + " " + (apellido1 + " " + apellido2) == (nombres + " " + apellido1) + " " + apellido2;
    DividirNombreRoundTrip(nombres + " " + apellido1, apellido2);
  }

  // ---------------------------------------------------------------------
  // Search
  // ---------------------------------------------------------------------

  /** The search test on the lower-cased query: given names, surnames and
      e-mail compared lower-cased, document and phone as they are. */
  function Coincide(searchQuery: string): Deportista -> bool {
    (d: Deportista) =>
      var query := ToLower(searchQuery);
      Contains(ToLower(d.nombres), query) || Contains(ToLower(d.apellidos), query) ||
      Contains(d.numeroDocumento, query) ||
      (d.email.Some? && Contains(ToLower(d.email.value), query)) ||
      (d.telefono.Some? && Contains(d.telefono.value, query))
  }

  /** `deportistasFiltrados`. */
  function Filtrados(deportistas: seq<Deportista>, searchQuery: string): seq<Deportista> {
    Filtrar(deportistas, Coincide(searchQuery))
  }

  /** The listed athletes are exactly the loaded ones that match, in the
      order they were loaded. */
  lemma FiltradosIff(deportistas: seq<Deportista>, searchQuery: string, d: Deportista)
    ensures d in Filtrados(deportistas, searchQuery) <==> d in deportistas && Coincide(searchQuery)(d)
    ensures Subsecuencia(Filtrados(deportistas, searchQuery), deportistas)
  {
    if d in Filtrados(deportistas, searchQuery) {
      FiltrarSubconjunto(deportistas, Coincide(searchQuery), d);
    }
    if d in deportistas && Coincide(searchQuery)(d) {
      var k :| 0 <= k < |deportistas| && deportistas[k] == d;
      FiltrarCompleto(deportistas, Coincide(searchQuery), k);
    }
    FiltrarSubsecuencia(deportistas, Coincide(searchQuery));
  }

  /** An empty search lists everyone. */
  lemma FiltradosVacia(deportistas: seq<Deportista>)
    ensures Filtrados(deportistas, "") == deportistas
  {
    forall k | 0 <= k < |deportistas| ensures Coincide("")(deportistas[k]) {
      ContainsEmpty(ToLower(deportistas[k].nombres));
    }
    FiltrarTodos(deportistas, Coincide(""));
  }

  /** The case the query is typed in does not matter, since every field is
      compared with the lower-cased query. */
  lemma FiltradosSinMayusculas(deportistas: seq<Deportista>, searchQuery: string)
    ensures Filtrados(deportistas, ToUpper(searchQuery)) == Filtrados(deportistas, searchQuery)
  {
    ToLowerToUpper(searchQuery);
    FiltrarIgual(deportistas, Coincide(ToUpper(searchQuery)), Coincide(searchQuery));
  }

  // ---------------------------------------------------------------------
  // Pages
  // ---------------------------------------------------------------------

  /** `response.total_pages || 1`. */
  function TotalPaginas(totalPages: nat): (r: nat)
    ensures r >= 1
    ensures totalPages > 0 ==> r == totalPages
  {
    if totalPages == 0 then 1 else totalPages
  }

  /** "Anterior": `Math.max(1, page - 1)`. */
  function PaginaAnterior(page: int): int {
    if page - 1 > 1 then page - 1 else 1
  }

  /** "Siguiente": `Math.min(totalPages, page + 1)`. */
  function PaginaSiguiente(page: int, totalPages: int): int {
    if page + 1 < totalPages then page + 1 else totalPages
  }

  /** "Anterior" never goes below page 1 and "Siguiente" never past the
      last page; from a page in range both stay in range, and each moves
      by one page unless it is at its end. */
  lemma PaginasEnRango(page: int, totalPages: int)
    requires totalPages >= 1
    ensures PaginaAnterior(page) >= 1 && PaginaSiguiente(page, totalPages) <= totalPages
    ensures 1 <= page <= totalPages ==>
      1 <= PaginaAnterior(page) <= totalPages && 1 <= PaginaSiguiente(page, totalPages) <= totalPages
    ensures page > 1 ==> PaginaAnterior(page) == page - 1
    ensures page < totalPages ==> PaginaSiguiente(page, totalPages) == page + 1
  {
  }

  // ---------------------------------------------------------------------
  // The edit dialog
  // ---------------------------------------------------------------------

  /** The fields of `formEditando` that saving reads. */
  datatype FormEdicion = FormEdicion(
    nombreCompleto: string, fechaNacimiento: string, numeroDocumento: string,
    telefono: string, correoElectronico: string, direccion: string, disciplina: string)

  /** `datosActualizar`, the body of the update request. */
  datatype DatosActualizar = DatosActualizar(
    nombres: string, apellidos: string, numeroDocumento: string, fechaNacimiento: string,
    telefono: string, email: string, direccion: string, tipoDeporte: string)

  /** The form `handleAbrirEditar` fills: the names joined by a space, the
      optional fields as "" when missing. */
  function FormularioEdicion(d: Deportista): FormEdicion {
    FormEdicion(d.nombres + " " + d.apellidos, d.fechaNacimiento.GetOr(""), d.numeroDocumento,
                d.telefono.GetOr(""), d.email.GetOr(""), d.direccion.GetOr(""), d.tipoDeporte.GetOr(""))
  }

  /** What `handleGuardarEdicion` sends for a form. */
  function Actualizacion(f: FormEdicion): DatosActualizar {
    var nombre := DividirNombre(f.nombreCompleto);
    DatosActualizar(nombre.0, nombre.1, f.numeroDocumento, f.fechaNacimiento, f.telefono, f.correoElectronico,
                    f.direccion, f.disciplina)
  }

  /** Opening the editor and saving it untouched sends the athlete's own
      data back, as long as the surname is one word. */
  lemma GuardarSinCambios(d: Deportista)
    requires d.nombres != "" && !IsJsSpace(d.nombres[0])
    requires d.apellidos != "" && forall i :: 0 <= i < |d.apellidos| ==> !IsJsSpace(d.apellidos[i])
    ensures Actualizacion(FormularioEdicion(d)) ==
      DatosActualizar(d.nombres, d.apellidos, d.numeroDocumento, d.fechaNacimiento.GetOr(""), d.telefono.GetOr(""),
                      d.email.GetOr(""), d.direccion.GetOr(""), d.tipoDeporte.GetOr(""))
  {
    DividirNombreRoundTrip(d.nombres, d.apellidos);
  }

  /** What the list endpoint answers: a bare array, a page object, or an
      error (which changes nothing). */
  datatype RespuestaListado = Lista(items: seq<Deportista>) | Pagina(items: seq<Deportista>, totalPages: nat) | Error

  class Listado {
    var deportistas: seq<Deportista>
    var searchQuery: string
    var page: int
    var totalPages: int
    var seleccionado: Option<Deportista>
    var formEditando: Option<FormEdicion>
    var edadEditar: Option<nat>

    /** The page and the page count are never below 1. */
    predicate Valid()
      reads this
    {
      page >= 1 && totalPages >= 1
    }

    constructor()
      ensures Valid()
      ensures deportistas == [] && searchQuery == "" && page == 1 && totalPages == 1
      ensures seleccionado.None? && formEditando.None? && edadEditar.None?
    {
      deportistas, searchQuery, page, totalPages := [], "", 1, 1;
      seleccionado, formEditando, edadEditar := None, None, None;
    }

    /** `cargarDeportistas` once the request has answered. */
    method Cargar(respuesta: RespuestaListado)
      requires Valid()
      modifies this
      ensures Valid()
      ensures respuesta.Error? ==> deportistas == old(deportistas)
      ensures !respuesta.Error? ==> deportistas == respuesta.items
      ensures totalPages == if respuesta.Pagina? then TotalPaginas(respuesta.totalPages) else old(totalPages)
      ensures page == old(page) && searchQuery == old(searchQuery)
      ensures seleccionado == old(seleccionado) && formEditando == old(formEditando) && edadEditar == old(edadEditar)
    {
      match respuesta {
        case Lista(items) =>
          deportistas := items;
        case Pagina(items, total) =>
          deportistas := items;
          totalPages := TotalPaginas(total);
        case Error =>
      }
    }

    method Anterior()
      requires Valid()
      modifies this
      ensures Valid() && page == PaginaAnterior(old(page))
      ensures old(page) <= totalPages ==> page <= totalPages
      ensures totalPages == old(totalPages) && deportistas == old(deportistas) && searchQuery == old(searchQuery)
      ensures seleccionado == old(seleccionado) && formEditando == old(formEditando) && edadEditar == old(edadEditar)
    {
      PaginasEnRango(page, totalPages);
      page := PaginaAnterior(page);
    }

    method Siguiente()
      requires Valid()
      modifies this
      ensures Valid() && page == PaginaSiguiente(old(page), totalPages) && page <= totalPages
      ensures totalPages == old(totalPages) && deportistas == old(deportistas) && searchQuery == old(searchQuery)
      ensures seleccionado == old(seleccionado) && formEditando == old(formEditando) && edadEditar == old(edadEditar)
    {
      PaginasEnRango(page, totalPages);
      page := PaginaSiguiente(page, totalPages);
    }

    /** `handleAbrirEditar`: the selected athlete, the filled form, and the
      age when a birth date is stored (otherwise the previous age stays). */
    method AbrirEditar(d: Deportista, hoy: Fecha)
      modifies this
      ensures seleccionado == Some(d) && formEditando == Some(FormularioEdicion(d))
      ensures edadEditar == if d.fechaNacimiento.Some? && d.fechaNacimiento.value != ""
                            then EdadTexto(hoy, d.fechaNacimiento.value) else old(edadEditar)
      ensures deportistas == old(deportistas) && searchQuery == old(searchQuery)
      ensures page == old(page) && totalPages == old(totalPages)
    {
      seleccionado := Some(d);
      formEditando := Some(FormularioEdicion(d));
      if d.fechaNacimiento.Some? && d.fechaNacimiento.value != "" {
        edadEditar := EdadTexto(hoy, d.fechaNacimiento.value);
      }
    }

    /** `handleGuardarEdicion`: nothing without a selected athlete, otherwise
      the update request for the form. */
    method GuardarEdicion() returns (datos: Option<(string, DatosActualizar)>)
      requires seleccionado.Some? ==> formEditando.Some?
      ensures seleccionado.None? ==> datos.None?
      ensures seleccionado.Some? ==> datos == Some((seleccionado.value.id, Actualizacion(formEditando.value)))
    {
      if seleccionado.None? {
        return None;
      }
      datos := Some((seleccionado.value.id, Actualizacion(formEditando.value)));
    }
  }
}

/**
 * The two-step athlete registration form: step 1 sends the personal data
 * (after looking the catalogue ids up), step 2 records vaccines for the
 * athlete just created; the age is shown as the birth date is typed, and
 * cancelling deletes the athlete created so far and starts over. The
 * backend's answers are parameters.
 */
module RegistroDeportista {
  import opened Wrappers
  import opened Fechas
  import ListadoDeportistas

  /** An item of a catalogue as `useCatalogos` returns it. */
  datatype ItemCatalogo = ItemCatalogo(id: string, nombre: string)

  /** `MAPEO_CATALOGOS.tipoDocumento`: form value to catalogue name. */
  const MapeoTipoDocumento: map<string, string> := map[
    "cedula_ciudadania" := "Cédula de ciudadanía",
    "cedula_extranjeria" := "Cédula de extranjerÍa",
    "pasaporte" := "Pasaporte",
    "nit" := "NIT",
    "tarjeta_identidad" := "Tarjeta de identidad",
    "pep" := "Permiso Especial de Permanencia"]

  /** `MAPEO_CATALOGOS.genero`. */
  const MapeoGenero: map<string, string> := map["masculino" := "Masculino", "femenino" := "Femenino", "otro" := "Otro"]

  /** `MAPEO_CATALOGOS.estado.activo`: every new athlete is active. */
  const NombreEstadoActivo := "Activo"

  /** `CIUDADES_POR_DEPARTAMENTO`. */
  const CiudadesPorDepartamento: map<string, seq<string>> := map[
    "Huila" := ["Neiva", "Pitalito", "Garzón", "La Plata", "Campoalegre"],
    "Bogotá D.C." := ["Bogotá"],
    "Antioquia" := ["Medellín", "Bello", "Itagüí", "Envigado"],
    "Valle del Cauca" := ["Cali", "Palmira", "Buenaventura"]]

  /** The step-1 form; optional fields the user left alone are "". */
  datatype FormDataPersonales = FormDataPersonales(
    nombreCompleto: string, fechaNacimiento: string, genero: string, tipoDocumento: string,
    numeroDocumento: string, nacionalidad: string, departamento: string, ciudad: string,
    estrato: string, etnia: string, telefono: string, correoElectronico: string,
    direccion: string, disciplina: string)

  /** `defaultValues`, to which `reset()` returns. */
  const FormularioInicial := FormDataPersonales("", "", "", "", "", "", "", "", "", "", "", "", "", "")

  /** The body of the creation request. */
  datatype DatosAEnviar = DatosAEnviar(
    tipoDocumentoId: string, numeroDocumento: string, nombres: string, apellidos: string,
    fechaNacimiento: string, sexoId: string, telefono: string, email: string, direccion: string,
    estadoId: string, tipoDeporte: string)

  /** `items.find((c) => c.nombre === nombre)?.id`: the id of the first item
      with that name; an unmapped form value (no name) finds nothing. */
  function BuscarId(items: seq<ItemCatalogo>, nombre: Option<string>): (r: Option<string>)
    ensures r.Some? ==> nombre.Some? && exists i :: 0 <= i < |items| && items[i].nombre == nombre.value && items[i].id == r.value
    ensures r.None? <==> nombre.None? || forall i :: 0 <= i < |items| ==> items[i].nombre != nombre.value
  {
    if nombre.None? || items == [] then None
    else if items[0].nombre == nombre.value then Some(items[0].id)
    else
      var r := BuscarId(items[1..], nombre);
      assert forall i :: 1 <= i < |items| ==> items[i] == items[1..][i - 1];
      r
  }

  /** The name a form value maps to, if the mapping has it. */
  function Mapeado(m: map<string, string>, clave: string): Option<string> {
    if clave in m then Some(m[clave]) else None
  }

  /** A found id that is not empty (`!tipoDocId` is false). */
  predicate IdValido(id: Option<string>) {
    id.Some? && id.value != ""
  }

  /** The ten fields registered with `required`: `handleSubmit` does not call
      the submit handler while any of them is the empty string. */
  predicate RequeridosLlenos(data: FormDataPersonales) {
    data.nombreCompleto != "" && data.fechaNacimiento != "" && data.genero != ""
    && data.tipoDocumento != "" && data.numeroDocumento != "" && data.disciplina != ""
    && data.telefono != "" && data.correoElectronico != "" && data.direccion != ""
    && data.nacionalidad != ""
  }

  /** What `handleSubmit(onSubmitPaso1)` sends: nothing while a required
      field is empty or any of the three catalogue ids is missing; otherwise
      the ids, the split name, and the form fields. */
  function DatosPaso1(data: FormDataPersonales, tiposDocumento: seq<ItemCatalogo>, sexos: seq<ItemCatalogo>,
                      estados: seq<ItemCatalogo>): Option<DatosAEnviar>
  {
    if !RequeridosLlenos(data) then None
    else
      var tipoDocId := BuscarId(tiposDocumento, Mapeado(MapeoTipoDocumento, data.tipoDocumento));
      var sexoId := BuscarId(sexos, Mapeado(MapeoGenero, data.genero));
      var estadoId := BuscarId(estados, Some(NombreEstadoActivo));
      if !IdValido(tipoDocId) || !IdValido(sexoId) || !IdValido(estadoId) then None
      else
        var nombre := ListadoDeportistas.DividirNombre(data.nombreCompleto);
        Some(DatosAEnviar(tipoDocId.value, data.numeroDocumento, nombre.0, nombre.1, data.fechaNacimiento, sexoId.value,
                          data.telefono, data.correoElectronico, data.direccion, estadoId.value, data.disciplina))
  }

  /** Submission goes ahead exactly when every required field is filled
      in, the document type and the sex chosen map to catalogue items with
      an id, and "Activo" has one; what it sends names those items, the
      split full name and the form's own fields. */
  lemma DatosPaso1Efecto(data: FormDataPersonales, tiposDocumento: seq<ItemCatalogo>, sexos: seq<ItemCatalogo>,
                         estados: seq<ItemCatalogo>)
    ensures DatosPaso1(data, tiposDocumento, sexos, estados).Some? <==>
      RequeridosLlenos(data) &&
      IdValido(BuscarId(tiposDocumento, Mapeado(MapeoTipoDocumento, data.tipoDocumento))) &&
      IdValido(BuscarId(sexos, Mapeado(MapeoGenero, data.genero))) &&
      IdValido(BuscarId(estados, Some(NombreEstadoActivo)))
    ensures DatosPaso1(data, tiposDocumento, sexos, estados).Some? ==>
      var d := DatosPaso1(data, tiposDocumento, sexos, estados).value;
      data.tipoDocumento in MapeoTipoDocumento && data.genero in MapeoGenero &&
      (exists i :: 0 <= i < |tiposDocumento| &&
        tiposDocumento[i].nombre == MapeoTipoDocumento[data.tipoDocumento] && tiposDocumento[i].id == d.tipoDocumentoId) &&
      (exists i :: 0 <= i < |sexos| && sexos[i].nombre == MapeoGenero[data.genero] && sexos[i].id == d.sexoId) &&
      (exists i :: 0 <= i < |estados| && estados[i].nombre == NombreEstadoActivo && estados[i].id == d.estadoId) &&
      (d.nombres, d.apellidos) == ListadoDeportistas.DividirNombre(data.nombreCompleto) &&
      d.numeroDocumento == data.numeroDocumento && d.fechaNacimiento == data.fechaNacimiento &&
      d.telefono == data.telefono && d.email == data.correoElectronico &&
      d.direccion == data.direccion && d.tipoDeporte == data.disciplina
  {
  }

  /** A filled-in form whose choices are in the catalogues is sent, so the
      second step can be reached. */
  lemma EnvioPosible()
    ensures DatosPaso1(
      FormDataPersonales("Ana Rojas", "2000-05-01", "femenino", "pasaporte", "123", "Colombia", "", "", "", "",
                         "300", "ana@correo.co", "Calle 1", "Atletismo"),
      [ItemCatalogo("t1", "Pasaporte")], [ItemCatalogo("s1", "Femenino")], [ItemCatalogo("e1", "Activo")]).Some?
  {
  }

  /** A form with a required field left empty is never sent. */
  lemma RequeridoVacioNoEnvia(data: FormDataPersonales, tiposDocumento: seq<ItemCatalogo>, sexos: seq<ItemCatalogo>,
                              estados: seq<ItemCatalogo>)
    requires data.nombreCompleto == "" || data.telefono == "" || data.nacionalidad == ""
    ensures DatosPaso1(data, tiposDocumento, sexos, estados).None?
  {
  }

  /** A document type the mapping does not know never gets through. */
  lemma TipoDocumentoDesconocido(data: FormDataPersonales, tiposDocumento: seq<ItemCatalogo>, sexos: seq<ItemCatalogo>,
                                 estados: seq<ItemCatalogo>)
    requires data.tipoDocumento !in MapeoTipoDocumento
    ensures DatosPaso1(data, tiposDocumento, sexos, estados).None?
  {
  }

  /** `ciudadesDisponibles`: the cities of the chosen department, or none
      when no department is chosen or the table does not list it. */
  function CiudadesDisponibles(departamento: string): (r: seq<string>)
    ensures departamento == "" || departamento !in CiudadesPorDepartamento ==> r == []
    ensures departamento != "" && departamento in CiudadesPorDepartamento ==> r == CiudadesPorDepartamento[departamento]
  {
    if departamento != "" then (if departamento in CiudadesPorDepartamento then CiudadesPorDepartamento[departamento] else [])
    else []
  }

  /** Only four departments offer cities. */
  lemma CiudadesSoloCuatro(departamento: string)
    requires CiudadesDisponibles(departamento) != []
    ensures departamento == "Huila" || departamento == "Bogotá D.C." || departamento == "Antioquia" ||
            departamento == "Valle del Cauca"
  {
  }

  /** The age effect: no age without a birth date. */
  function EdadFormulario(hoy: Fecha, fechaNacimiento: string): (r: Option<nat>)
    ensures fechaNacimiento == "" ==> r.None?
    ensures fechaNacimiento != "" ==> r == EdadTexto(hoy, fechaNacimiento)
  {
    if fechaNacimiento != "" then EdadTexto(hoy, fechaNacimiento) else None
  }

  class Registro {
    var paso: int
    var edad: Option<nat>
    var deportistaId: string
    var formulario: FormDataPersonales

    /** Step 1 or 2, and step 2 only once an athlete has been created. */
    predicate Valid()
      reads this
    {
      (paso == 1 || paso == 2) && (paso == 2 ==> deportistaId != "")
    }

    constructor()
      ensures Valid()
      ensures paso == 1 && edad.None? && deportistaId == "" && formulario == FormularioInicial
    {
      paso, edad, deportistaId, formulario := 1, None, "", FormularioInicial;
    }

    /** Typing into the registered inputs: the form becomes `nuevo`. The age
        effect runs only when the birth date changed. */
    method EscribirFormulario(nuevo: FormDataPersonales, hoy: Fecha)
      requires Valid()
      modifies this
      ensures Valid()
      ensures formulario == nuevo
      ensures nuevo.fechaNacimiento == old(formulario.fechaNacimiento) ==> edad == old(edad)
      ensures nuevo.fechaNacimiento != old(formulario.fechaNacimiento) ==>
        edad == EdadFormulario(hoy, nuevo.fechaNacimiento)
      ensures paso == old(paso) && deportistaId == old(deportistaId)
    {
      if nuevo.fechaNacimiento != formulario.fechaNacimiento {
        edad := EdadFormulario(hoy, nuevo.fechaNacimiento);
      }
      formulario := nuevo;
    }

    /** Typing the birth date, and the effect that follows it. */
    method CambiarFechaNacimiento(fechaNacimiento: string, hoy: Fecha)
      requires Valid()
      modifies this
      ensures Valid()
      ensures formulario == old(formulario).(fechaNacimiento := fechaNacimiento)
      ensures edad == EdadFormulario(hoy, fechaNacimiento)
      ensures paso == old(paso) && deportistaId == old(deportistaId)
    {
      formulario := formulario.(fechaNacimiento := fechaNacimiento);
      edad := EdadFormulario(hoy, fechaNacimiento);
    }

    /**
     * `onSubmitPaso1`: returns the request sent, if any. `respuesta` is the
     * id the backend answers with (None when the request fails); a
     * non-empty id is stored and step 2 opens.
     */
    method EnviarPaso1(tiposDocumento: seq<ItemCatalogo>, sexos: seq<ItemCatalogo>, estados: seq<ItemCatalogo>,
                       respuesta: Option<string>) returns (enviado: Option<DatosAEnviar>)
      requires Valid()
      modifies this
      ensures Valid()
      ensures enviado == DatosPaso1(formulario, tiposDocumento, sexos, estados)
      ensures formulario == old(formulario) && edad == old(edad)
      ensures enviado.Some? && respuesta.Some? && respuesta.value != "" ==>
        deportistaId == respuesta.value && paso == 2
      ensures !(enviado.Some? && respuesta.Some? && respuesta.value != "") ==>
        deportistaId == old(deportistaId) && paso == old(paso)
    {
      enviado := DatosPaso1(formulario, tiposDocumento, sexos, estados);
      if enviado.None? {
        return;
      }
      if respuesta.Some? && respuesta.value != "" {
        deportistaId := respuesta.value;
        paso := 2;
      }
    }

    /** "Anterior" on step 2. */
    method VolverPaso1()
      requires Valid()
      modifies this
      ensures Valid() && paso == 1
      ensures deportistaId == old(deportistaId) && formulario == old(formulario) && edad == old(edad)
    {
      paso := 1;
    }

    /** `handleCancel`: the athlete created so far is deleted (the id is
      returned); `rechazada` says whether that DELETE request rejects, which
      skips the rest of the `try`. Otherwise the id is cleared, step 1 opens
      and the form is reset, which clears the age. */
    method Cancelar(rechazada: bool) returns (eliminar: Option<string>)
      requires Valid()
      modifies this
      ensures Valid()
      ensures eliminar == if old(deportistaId) != "" then Some(old(deportistaId)) else None
      ensures eliminar.Some? && rechazada ==>
        paso == old(paso) && deportistaId == old(deportistaId) &&
        formulario == old(formulario) && edad == old(edad)
      ensures eliminar.None? || !rechazada ==>
        paso == 1 && deportistaId == "" && formulario == FormularioInicial && edad.None?
    {
      eliminar := if deportistaId != "" then Some(deportistaId) else None;
      if eliminar.Some? && rechazada {
        return;
      }
      deportistaId := "";
      paso := 1;
      formulario := FormularioInicial;
      edad := None;
    }
  }
}

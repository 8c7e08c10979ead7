// The catalogue administration page: the form that creates and edits costume
// types, the record a save sends to the `disfraces` table, and the button
// that switches a costume on or off. The page works on the table through the
// client library; here the table is a map from id to row held by the page
// object, and the outcome of each database call is a parameter.

module Catalogo {
  import opened Tipos
  import opened Texto

  /** A `disfraces` row. */
  datatype Disfraz = Disfraz(
    id: string, nombre: string, danza: string, talla: string,
    precioBase: Centimos, precioTemporada: Centimos,
    stockTotal: int, stockDisponible: int, fotoUrl: Option<string>, activo: bool)

  /** The modal form. */
  datatype Formulario = Formulario(
    nombre: string, danza: string, talla: string,
    precioBase: Centimos, precioTemporada: Centimos, stockTotal: int, fotoUrl: string)

  /** The dances the form's select offers. */
  const Danzas: seq<string> := [
    "Diablada", "Tinkuy", "Tonda", "Carnavalito", "Huayra", "Sikuri", "Diablada Infantil",
    "Negrería", "Morenada", "Carnaval", "Otro"]

  /** The form `abrirNuevo` opens: the first dance, one unit, no prices, empty texts. */
  const FormularioNuevo: Formulario := Formulario("", "Diablada", "", 0, 0, 1, "")

  /** The form `abrirEditar` opens: the row's values, a missing photo as the empty text. */
  function FormularioDe(d: Disfraz): (f: Formulario)
    ensures f.fotoUrl == d.fotoUrl.GetOr("")
  {
    Formulario(d.nombre, d.danza, d.talla, d.precioBase, d.precioTemporada, d.stockTotal, d.fotoUrl.GetOr(""))
  }

  /** The `data` record of `guardar`. A field that is `undefined` is left out of
      the request, so it is None here and the column keeps its value. */
  datatype Datos = Datos(
    nombre: string, danza: string, talla: string,
    precioBase: Centimos, precioTemporada: Centimos, stockTotal: int,
    stockDisponible: Option<int>, fotoUrl: Option<string>, activo: bool)

  /** The record built from the form: the available stock only when creating,
      an empty photo as null, and always active. */
  function DatosDe(f: Formulario, editando: bool): (d: Datos)
    ensures d.activo
    ensures d.stockDisponible == (if editando then None else Some(f.stockTotal))
    ensures d.fotoUrl.None? <==> f.fotoUrl == ""
    ensures d.fotoUrl.Some? ==> d.fotoUrl.value == f.fotoUrl
  {
    Datos(f.nombre, f.danza, f.talla, f.precioBase, f.precioTemporada, f.stockTotal,
      if editando then None else Some(f.stockTotal),
      if f.fotoUrl == "" then None else Some(f.fotoUrl),
      true)
  }

  /** The row an update with `datos` leaves behind. */
  function Actualizar(fila: Disfraz, datos: Datos): (r: Disfraz)
    ensures r.id == fila.id && r.activo == datos.activo && r.stockTotal == datos.stockTotal
    ensures datos.stockDisponible.None? ==> r.stockDisponible == fila.stockDisponible
    ensures datos.stockDisponible.Some? ==> r.stockDisponible == datos.stockDisponible.value
  {
    fila.(nombre := datos.nombre, danza := datos.danza, talla := datos.talla,
          precioBase := datos.precioBase, precioTemporada := datos.precioTemporada,
          stockTotal := datos.stockTotal,
          stockDisponible := datos.stockDisponible.GetOr(fila.stockDisponible),
          fotoUrl := datos.fotoUrl, activo := datos.activo)
  }

  /** The row an insert of a record built from the form creates under id. */
  function Insertar(id: string, datos: Datos): Disfraz
    requires datos.stockDisponible.Some?
  {
    Disfraz(id, datos.nombre, datos.danza, datos.talla, datos.precioBase, datos.precioTemporada,
      datos.stockTotal, datos.stockDisponible.value, datos.fotoUrl, datos.activo)
  }

  /** A new costume starts with all its units available. */
  lemma CrearConTodoDisponible(id: string, f: Formulario)
    ensures var d := Insertar(id, DatosDe(f, false));
      d.stockDisponible == d.stockTotal == f.stockTotal && d.activo
  {
  }

  /** An edit takes the new total but keeps the available count. */
  lemma EditarConservaDisponible(fila: Disfraz, f: Formulario)
    ensures var d := Actualizar(fila, DatosDe(f, true));
      d.stockTotal == f.stockTotal && d.stockDisponible == fila.stockDisponible && d.id == fila.id
  {
  }

  /** So lowering the total below the units available leaves more available
      than exist: five of five available, total edited to two. */
  lemma EdicionDejaMasDisponiblesQueTotal()
    ensures var fila := Disfraz("d1", "Caporal", "Diablada", "M", 15000, 20000, 5, 5, None, true);
      var d := Actualizar(fila, DatosDe(FormularioDe(fila).(stockTotal := 2), true));
      fila.stockDisponible <= fila.stockTotal && d.stockDisponible > d.stockTotal
  {
  }

  /** Saving an edit switches a costume that was off back on. */
  lemma EditarReactiva(fila: Disfraz, f: Formulario)
    requires !fila.activo
    ensures Actualizar(fila, DatosDe(f, true)).activo
  {
  }

  /** An empty photo text is saved as null, and a null photo opens as the empty text. */
  lemma FotoVaciaEsNula(f: Formulario, editando: bool, d: Disfraz)
    ensures DatosDe(f, editando).fotoUrl.None? <==> f.fotoUrl == ""
    ensures d.fotoUrl.None? ==> FormularioDe(d).fotoUrl == ""
  {
  }

  /** Opening a row for editing and saving it untouched writes the row back as
      it was, switched on, unless its photo was stored as the empty text. */
  lemma EditarSinCambios(fila: Disfraz)
    requires fila.fotoUrl != Some("")
    ensures Actualizar(fila, DatosDe(FormularioDe(fila), true)) == fila.(activo := true)
  {
  }

  /** `toggleActivo(id, activo)` writes the negation of the value the list showed. */
  function Alternar(fila: Disfraz, activo: bool): (r: Disfraz)
    ensures r.activo != activo
    ensures r.(activo := fila.activo) == fila
  {
    fila.(activo := !activo)
  }

  /** Toggling from the current value flips it and touches nothing else;
      toggling twice restores the row. */
  lemma AlternarDosVeces(fila: Disfraz)
    ensures Alternar(fila, fila.activo).activo == !fila.activo
    ensures Alternar(fila, fila.activo).(activo := fila.activo) == fila
    ensures var g := Alternar(fila, fila.activo); Alternar(g, g.activo) == fila
  {
  }

  /** Every row is stored under its own id. */
  ghost predicate IdsCoherentes(tabla: map<string, Disfraz>) {
    forall k :: k in tabla ==> tabla[k].id == k
  }

  class PaginaCatalogo {
    var disfraces: map<string, Disfraz>
    var mostrarModal: bool
    var editando: Option<Disfraz>
    var mensaje: string
    var form: Formulario

    ghost predicate Valido()
      reads this
    {
      IdsCoherentes(disfraces)
    }

    constructor(tabla: map<string, Disfraz>)
      requires IdsCoherentes(tabla)
      ensures Valido()
      ensures disfraces == tabla && !mostrarModal && editando.None? && mensaje == "" && form == FormularioNuevo
    {
      disfraces := tabla;
      mostrarModal := false;
      editando := None;
      mensaje := "";
      form := FormularioNuevo;
    }

    /** `abrirNuevo` */
    method AbrirNuevo()
      requires Valido()
      modifies this
      ensures Valido()
      ensures editando.None? && form == FormularioNuevo && mensaje == "" && mostrarModal
      ensures disfraces == old(disfraces)
    {
      editando := None;
      form := FormularioNuevo;
      mensaje := "";
      mostrarModal := true;
    }

    /** `abrirEditar(d)` */
    method AbrirEditar(d: Disfraz)
      requires Valido()
      modifies this
      ensures Valido()
      ensures editando == Some(d) && form == FormularioDe(d) && mensaje == "" && mostrarModal
      ensures disfraces == old(disfraces)
    {
      editando := Some(d);
      form := FormularioDe(d);
      mensaje := "";
      mostrarModal := true;
    }

    /** Typing in the form. */
    method EditarFormulario(f: Formulario)
      requires Valido()
      modifies this
      ensures Valido()
      ensures form == f
      ensures disfraces == old(disfraces) && editando == old(editando) && mensaje == old(mensaje)
      ensures mostrarModal == old(mostrarModal)
    {
      form := f;
    }

    /** `guardar`: updates the row being edited or inserts a new one under
        `nuevoId`, the id the database generates; `error` is the call's error.
        On success the modal closes (after a one-second timeout). */
    method Guardar(nuevoId: string, error: Option<string>)
      requires Valido()
      requires editando.None? ==> nuevoId !in disfraces
      modifies this
      ensures Valido()
      ensures form == old(form) && editando == old(editando)
      ensures error.Some? ==>
        disfraces == old(disfraces) && mensaje == MensajeDeError(error.value) && mostrarModal == old(mostrarModal)
      ensures error.None? && old(editando).Some? ==>
        var id := old(editando).value.id;
        disfraces == (if id in old(disfraces)
                      then old(disfraces)[id := Actualizar(old(disfraces)[id], DatosDe(old(form), true))]
                      else old(disfraces))
        && mensaje == "Disfraz actualizado" && !mostrarModal
      ensures error.None? && old(editando).None? ==>
        disfraces == old(disfraces)[nuevoId := Insertar(nuevoId, DatosDe(old(form), false))]
        && mensaje == "Disfraz creado" && !mostrarModal
    {
      mensaje := "";
      var datos := DatosDe(form, editando.Some?);
      if error.Some? {
        mensaje := MensajeDeError(error.value);
        return;
      }
      if editando.Some? {
        var id := editando.value.id;
        if id in disfraces {
          disfraces := disfraces[id := Actualizar(disfraces[id], datos)];
        }
        mensaje := "Disfraz actualizado";
      } else {
        disfraces := disfraces[nuevoId := Insertar(nuevoId, datos)];
        mensaje := "Disfraz creado";
      }
      mostrarModal := false;
    }

    /** `toggleActivo(id, activo)`: `activo` is the value the list showed;
        `error` is the update's error. */
    method ToggleActivo(id: string, activo: bool, error: bool)
      requires Valido()
      modifies this
      ensures Valido()
      ensures !error && id in old(disfraces) ==> disfraces == old(disfraces)[id := Alternar(old(disfraces)[id], activo)]
      ensures error || id !in old(disfraces) ==> disfraces == old(disfraces)
      ensures form == old(form) && editando == old(editando) && mensaje == old(mensaje)
      ensures mostrarModal == old(mostrarModal)
    {
      if !error && id in disfraces {
        disfraces := disfraces[id := Alternar(disfraces[id], activo)];
      }
    }
  }
}

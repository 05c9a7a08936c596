/** The patient form: the selection slot, the form state, the selection-to-draft effect and
    the submit handler with its validation, edit (replace by id) and create (append) branches. */
module Form {
  import opened Pacientes

  /** The selection slot `paciente`: the empty object `{}` or one record chosen for editing. */
  datatype Selection = Empty | Selected(paciente: Paciente)

  /** The selection has keys (`Object.keys(paciente).length > 0`): the effect copies it. */
  predicate HasKeys(sel: Selection) {
    sel.Selected?
  }

  /** `paciente.id` is truthy: the form is in edit mode. The empty object has no id, and a
      selected record whose id is the empty string counts as create mode. */
  predicate EditMode(sel: Selection) {
    sel.Selected? && sel.paciente.id != ""
  }

  /** The text of the submit button. */
  function ButtonLabel(sel: Selection): (text: string)
    ensures text == "Guardar Cambios" <==> EditMode(sel)
    ensures text == "Agregar Pacientes" <==> !EditMode(sel)
  {
    if EditMode(sel) then "Guardar Cambios" else "Agregar Pacientes"
  }

  /** Everything the submit handler and the effect read and write: the five draft fields,
      the error flag, the collection `pacientes` and the selection `paciente`. */
  datatype FormState = FormState(
    draft: Draft,
    error: bool,
    pacientes: seq<Paciente>,
    paciente: Selection)

  /** The state after the selection becomes `sel` and the effect on `paciente` has run: a
      selection with keys is copied into the draft, an empty one leaves the draft alone. */
  function Load(s: FormState, sel: Selection): (r: FormState)
    ensures r.paciente == sel && r.error == s.error && r.pacientes == s.pacientes
    ensures HasKeys(sel) ==> WithId(r.draft, sel.paciente.id) == sel.paciente
    ensures !HasKeys(sel) ==> r.draft == s.draft
  {
    var t := s.(paciente := sel);
    if HasKeys(sel) then t.(draft := DraftOf(sel.paciente)) else t
  }

  /** The submit handler on the state `s`; `newId` stands for what `generarID` returns. */
  function Submit(s: FormState, newId: string): (r: FormState)
    // a draft with an empty field raises the error flag and changes nothing else
    ensures Incomplete(s.draft) ==>
      r.error && r.draft == s.draft && r.pacientes == s.pacientes && r.paciente == s.paciente
    // a complete draft clears the error flag and is itself reset to all empty fields
    ensures !Incomplete(s.draft) ==> !r.error && r.draft == EmptyDraft
    // edit mode: same length and order, every element with the selected id becomes the
    // draft under that id, every other element is unchanged, and the selection is cleared
    ensures !Incomplete(s.draft) && EditMode(s.paciente) ==>
      && |r.pacientes| == |s.pacientes|
      && (forall i :: 0 <= i < |s.pacientes| && s.pacientes[i].id == s.paciente.paciente.id ==>
            r.pacientes[i] == WithId(s.draft, s.paciente.paciente.id))
      && (forall i :: 0 <= i < |s.pacientes| && s.pacientes[i].id != s.paciente.paciente.id ==>
            r.pacientes[i] == s.pacientes[i])
      && r.paciente == Empty
    // create mode: exactly one record more, at the end, with the draft's content and the
    // generated id; the earlier records and the selection are unchanged
    ensures !Incomplete(s.draft) && !EditMode(s.paciente) ==>
      && |r.pacientes| == |s.pacientes| + 1
      && r.pacientes[..|s.pacientes|] == s.pacientes
      && r.pacientes[|s.pacientes|] == WithId(s.draft, newId)
      && r.paciente == s.paciente
  {
    if Incomplete(s.draft) then
      s.(error := true)
    else if EditMode(s.paciente) then
      var id := s.paciente.paciente.id;
      FormState(EmptyDraft, false, ReplaceById(s.pacientes, id, WithId(s.draft, id)), Empty)
    else
      FormState(EmptyDraft, false, Append(s.pacientes, WithId(s.draft, newId)), s.paciente)
  }

  /** Selecting a record that has an id and submitting it without edits leaves the collection
      unchanged in value, provided every element with that id already equals the record. */
  lemma LoadSubmitRoundTrip(s: FormState, p: Paciente, newId: string)
    requires p.id != ""
    requires forall i :: 0 <= i < |s.pacientes| && s.pacientes[i].id == p.id ==> s.pacientes[i] == p
    ensures Submit(Load(s, Selected(p)), newId).pacientes == s.pacientes
  {
  }

  /** A selection with keys but an empty id is copied into the draft, yet the submit runs in
      create mode: the record is appended under a fresh id and the selection stays. */
  lemma SelectionWithoutIdCreates(s: FormState, p: Paciente, newId: string)
    requires p.id == ""
    requires !Incomplete(DraftOf(p))
    ensures ButtonLabel(Selected(p)) == "Agregar Pacientes"
    ensures Submit(Load(s, Selected(p)), newId).pacientes == s.pacientes + [WithId(DraftOf(p), newId)]
    ensures Submit(Load(s, Selected(p)), newId).paciente == Selected(p)
  {
  }

  /** After an accepted submit in edit mode the form is in create mode: the button reads
      "Agregar Pacientes" and the next accepted submit appends under the generated id. */
  lemma EditSubmitReturnsToCreate(s: FormState, id1: string, d: Draft, id2: string)
    requires EditMode(s.paciente) && !Incomplete(s.draft)
    requires !Incomplete(d)
    ensures ButtonLabel(Submit(s, id1).paciente) == "Agregar Pacientes"
    ensures Submit(Submit(s, id1).(draft := d), id2).pacientes
            == Submit(s, id1).pacientes + [WithId(d, id2)]
  {
  }

  /** Because an accepted submit resets the draft, submitting again without edits is
      rejected and leaves the collection and the selection as the first submit left them. */
  lemma ResubmitWithoutEditsRejected(s: FormState, id1: string, id2: string)
    requires !Incomplete(s.draft)
    ensures Submit(Submit(s, id1), id2)
            == Submit(s, id1).(error := true)
  {
  }

  /** Selecting a stored record, changing one field to a non-empty value and submitting
      replaces every element with the record's id by the record with only that field changed. */
  lemma EditOneFieldThenSubmit(s: FormState, p: Paciente, f: Field, v: string, newId: string)
    requires p.id != "" && !Incomplete(DraftOf(p)) && v != ""
    ensures var r := Submit(Load(s, Selected(p)).(draft := DraftOf(p).Set(f, v)), newId);
      && |r.pacientes| == |s.pacientes|
      && (forall i :: 0 <= i < |s.pacientes| && s.pacientes[i].id == p.id ==>
            r.pacientes[i].id == p.id
            && DraftOf(r.pacientes[i]).Get(f) == v
            && (forall g: Field :: g != f ==> DraftOf(r.pacientes[i]).Get(g) == DraftOf(p).Get(g)))
      && (forall i :: 0 <= i < |s.pacientes| && s.pacientes[i].id != p.id ==> r.pacientes[i] == s.pacientes[i])
      && r.paciente == Empty
      && r.draft == EmptyDraft
  {
  }

  /** The form component. Its fields are the five draft values and the error flag, plus the
      collection and the selection that the enclosing page passes in with their setters. */
  class Formulario {
    var nombre: string
    var propietario: string
    var email: string
    var fecha: string
    var sintomas: string
    var error: bool
    var pacientes: seq<Paciente>
    var paciente: Selection

    /** The abstract state the methods are specified against. */
    function State(): FormState
      reads this
    {
      FormState(Draft(nombre, propietario, email, fecha, sintomas), error, pacientes, paciente)
    }

    /** Mounting the form: every draft field and the error flag start empty, and the effect on
        `paciente` then runs once with the selection passed in. */
    constructor (pacientes0: seq<Paciente>, paciente0: Selection)
      ensures State() == Load(FormState(EmptyDraft, false, pacientes0, paciente0), paciente0)
    {
      nombre, propietario, email, fecha, sintomas := "", "", "", "", "";
      error := false;
      pacientes := pacientes0;
      paciente := paciente0;
      if HasKeys(paciente0) {
        nombre := paciente0.paciente.nombre;
        propietario := paciente0.paciente.propietario;
        email := paciente0.paciente.email;
        fecha := paciente0.paciente.fecha;
        sintomas := paciente0.paciente.sintomas;
      }
    }

    /** The page sets the selection, and the effect on `paciente` copies it into the draft. */
    method Select(sel: Selection)
      modifies this
      ensures State() == Load(old(State()), sel)
    {
      paciente := sel;
      if HasKeys(paciente) {
        nombre := paciente.paciente.nombre;
        propietario := paciente.paciente.propietario;
        email := paciente.paciente.email;
        fecha := paciente.paciente.fecha;
        sintomas := paciente.paciente.sintomas;
      }
    }

    /** The `onChange` handler of the input bound to `f`. */
    method SetField(f: Field, v: string)
      modifies this
      ensures State() == old(State()).(draft := old(State()).draft.Set(f, v))
    {
      match f
      case Nombre => nombre := v;
      case Propietario => propietario := v;
      case Email => email := v;
      case Fecha => fecha := v;
      case Sintomas => sintomas := v;
    }

    /** The submit handler; `newId` is the value `generarID` returns in create mode. */
    method HandleSubmit(newId: string)
      modifies this
      ensures State() == Submit(old(State()), newId)
    {
      if Incomplete(Draft(nombre, propietario, email, fecha, sintomas)) {
        error := true;
        return;
      }
      error := false;

      var objeto := Draft(nombre, propietario, email, fecha, sintomas);
      if EditMode(paciente) {
        var id := paciente.paciente.id;
        pacientes := ReplaceById(pacientes, id, WithId(objeto, id));
        paciente := Empty;
      } else {
        pacientes := Append(pacientes, WithId(objeto, newId));
      }

      nombre := "";
      propietario := "";
      email := "";
      fecha := "";
      sintomas := "";
    }
  }
}

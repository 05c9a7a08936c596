/** Patient records, the form's editable draft, the completeness check and the two
    collection updates the form performs (replace by id, append). */
module Pacientes {

  /** A patient record as stored in the collection `pacientes`. */
  datatype Paciente = Paciente(
    id: string,
    nombre: string,
    propietario: string,
    email: string,
    fecha: string,
    sintomas: string)

  /** One of the five content fields of a record, as edited through the form inputs. */
  datatype Field = Nombre | Propietario | Email | Fecha | Sintomas

  /** The form's five local state values, not yet validated nor stored. */
  datatype Draft = Draft(
    nombre: string,
    propietario: string,
    email: string,
    fecha: string,
    sintomas: string)
  {
    /** The value of one field. */
    function Get(f: Field): string {
      match f
      case Nombre => nombre
      case Propietario => propietario
      case Email => email
      case Fecha => fecha
      case Sintomas => sintomas
    }

    /** The draft after the input bound to `f` reports the value `v`. */
    function Set(f: Field, v: string): (d: Draft)
      ensures d.Get(f) == v
      ensures forall g: Field :: g != f ==> d.Get(g) == Get(g)
    {
      match f
      case Nombre => this.(nombre := v)
      case Propietario => this.(propietario := v)
      case Email => this.(email := v)
      case Fecha => this.(fecha := v)
      case Sintomas => this.(sintomas := v)
    }
  }

  /** The draft the form starts with and returns to after every stored submit. */
  const EmptyDraft := Draft("", "", "", "", "")

  /** The array `[nombre, propietario, email, fecha, sintomas]` the submit handler inspects. */
  function Fields(d: Draft): (r: seq<string>)
    ensures |r| == 5
    ensures forall f: Field :: d.Get(f) in r
    ensures forall i :: 0 <= i < |r| ==> exists f: Field :: r[i] == d.Get(f)
  {
    var r := [d.nombre, d.propietario, d.email, d.fecha, d.sintomas];
    assert r[0] == d.Get(Nombre) && r[1] == d.Get(Propietario) && r[2] == d.Get(Email);
    assert r[3] == d.Get(Fecha) && r[4] == d.Get(Sintomas);
    r
  }

  /** The validation rule: the draft is rejected when the field array includes `""`.
      Nothing else is checked, so an email or a date that is any non-empty string passes. */
  function Incomplete(d: Draft): (r: bool)
    ensures r <==> exists f: Field :: d.Get(f) == ""
    ensures !r <==> d.nombre != "" && d.propietario != "" && d.email != "" && d.fecha != "" && d.sintomas != ""
  {
    var r := "" in Fields(d);
    assert d.nombre == d.Get(Nombre) && d.propietario == d.Get(Propietario);
    assert d.email == d.Get(Email) && d.fecha == d.Get(Fecha) && d.sintomas == d.Get(Sintomas);
    r
  }

  /** The five content fields of a stored record, as the selection effect copies them. */
  function DraftOf(p: Paciente): Draft {
    Draft(p.nombre, p.propietario, p.email, p.fecha, p.sintomas)
  }

  /** The record object the submit handler builds from the draft, with `id` set afterwards. */
  function WithId(d: Draft, id: string): (p: Paciente)
    ensures p.id == id
    ensures DraftOf(p) == d
  {
    Paciente(id, d.nombre, d.propietario, d.email, d.fecha, d.sintomas)
  }

  /** A record is rebuilt from its own content and its own id. */
  lemma DraftOfWithId(p: Paciente)
    ensures WithId(DraftOf(p), p.id) == p
  {
  }

  /** `pacientes.map(q => q.id === id ? rec : q)`: every element whose id is `id` is replaced
      by `rec`, every other element stays where it was. */
  function ReplaceById(ps: seq<Paciente>, id: string, rec: Paciente): (r: seq<Paciente>)
    ensures |r| == |ps|
    ensures forall i :: 0 <= i < |ps| && ps[i].id == id ==> r[i] == rec
    ensures forall i :: 0 <= i < |ps| && ps[i].id != id ==> r[i] == ps[i]
  {
    if ps == [] then []
    else [if ps[0].id == id then rec else ps[0]] + ReplaceById(ps[1..], id, rec)
  }

  /** When no element carries the id, the collection comes back unchanged. */
  lemma ReplaceByIdMiss(ps: seq<Paciente>, id: string, rec: Paciente)
    requires forall i :: 0 <= i < |ps| ==> ps[i].id != id
    ensures ReplaceById(ps, id, rec) == ps
  {
  }

  /** When every element carrying the id already equals the replacement, the collection
      comes back unchanged in value. */
  lemma ReplaceByIdIdentity(ps: seq<Paciente>, id: string, rec: Paciente)
    requires forall i :: 0 <= i < |ps| && ps[i].id == id ==> ps[i] == rec
    ensures ReplaceById(ps, id, rec) == ps
  {
  }

  /** A replacement that carries the id it replaces keeps the id of every position. */
  lemma ReplaceByIdKeepsIds(ps: seq<Paciente>, id: string, rec: Paciente)
    requires rec.id == id
    ensures forall i :: 0 <= i < |ps| ==> ReplaceById(ps, id, rec)[i].id == ps[i].id
  {
  }

  /** `[...pacientes, rec]`: one record more, at the end, all earlier ones in place. */
  function Append(ps: seq<Paciente>, rec: Paciente): (r: seq<Paciente>)
    ensures |r| == |ps| + 1
    ensures r[..|ps|] == ps
    ensures r[|ps|] == rec
  {
    ps + [rec]
  }
}

# Patient form of a veterinary appointment tracker

This project models the patient form `Formulario` of a small React application that tracks
veterinary patients. Each record holds a pet name (`nombre`), an owner (`propietario`), an
email, an admission date (`fecha`), symptoms (`sintomas`) and an `id`. The form's state has
four parts:

- the five-field draft bound to the inputs;
- the `error` flag;
- the collection `pacientes`;
- the selection slot `paciente`.

The collection and the selection belong to the enclosing page. The form receives them with
their setters.

The model has two modules.

- `Pacientes` (`pacientes.dfy`) holds the values and pure operations. It defines the record
  and draft datatypes and the validation rule `Incomplete`, which rejects a draft whose field
  array includes `""`. It also defines the two collection updates: replace-by-id (the
  `pacientes.map(...)` of the edit branch) and append (the spread of the create branch).
- `Form` (`formulario.dfy`) holds the state machine.
  - `Selection = Empty | Selected(p)` stands for the empty object `{}` or a selected record.
  - `FormState` is the whole state.
  - `Load` is the effect that copies a selection into the draft.
  - `Submit` is the submit handler.
  - The class `Formulario` has the component's state as fields. Its methods `Select`,
    `SetField` and `HandleSubmit` update those fields step by step. Each method is proved to
    leave exactly the state that `Load`, `Draft.Set` or `Submit` describes. The properties are
    proved about those functions, as their contracts and as lemmas that chain several steps.

The source's two different tests on the selection stay visible in the model. The effect copies
the selection into the draft when the selection object has any keys (`HasKeys`). The submit
mode and the button label depend on `paciente.id` being truthy (`EditMode`). So a selected
record whose id is `""` fills the draft, but the submit then runs in create mode and the
selection is kept (`Form.SelectionWithoutIdCreates`).

The id that `generarID` builds from the clock and a random number is a parameter, `newId`, of
`Submit` and `HandleSubmit`. Nothing is claimed about its uniqueness, because the code does not
guarantee it.

## Model

| member | source | states |
|---|---|---|
| `Pacientes.Incomplete` | src/components/Formulario.jsx:54-57 | the draft is rejected exactly when one of its five fields is `""`; any non-empty strings pass, email and date included |
| `Pacientes.Fields` | src/components/Formulario.jsx:54 | the checked array has five entries, one for each draft field and nothing else |
| `Pacientes.Draft.Set` | src/components/Formulario.jsx:128-188 | an input's change sets its own field to the new value and leaves the other four as they were |
| `Pacientes.WithId` | src/components/Formulario.jsx:61-72 | the submitted record carries the given id and exactly the draft's five values |
| `Pacientes.DraftOfWithId` | src/components/Formulario.jsx:27-31 | a record rebuilt from the content the effect copies and its own id equals the original record |
| `Pacientes.ReplaceById` | src/components/Formulario.jsx:74-76 | same length and order; every element with the given id becomes the replacement; every other element is unchanged |
| `Pacientes.ReplaceByIdMiss` | src/components/Formulario.jsx:74-76 | when no element carries the id, the collection is unchanged |
| `Pacientes.ReplaceByIdIdentity` | src/components/Formulario.jsx:74-76 | when every element carrying the id already equals the replacement, the collection is unchanged in value |
| `Pacientes.ReplaceByIdKeepsIds` | src/components/Formulario.jsx:72-76 | because the replacement carries the selected id, every position keeps its id |
| `Pacientes.Append` | src/components/Formulario.jsx:90 | one element more, at the end, equal to the new record; all earlier elements keep their values and positions |
| `Form.ButtonLabel` | src/components/Formulario.jsx:193 | the button reads "Guardar Cambios" exactly in edit mode and "Agregar Pacientes" otherwise |
| `Form.Load` | src/components/Formulario.jsx:25-33 | a selection with keys makes the draft exactly that record's five values; an empty selection leaves the draft alone; the collection and error flag are untouched |
| `Form.Submit` | src/components/Formulario.jsx:52-106 | an incomplete draft sets `error` and changes nothing else. A complete draft clears `error` and resets the draft. Edit mode replaces by the selected id, keeps length and order, and clears the selection. Create mode appends one record with the draft and the new id, and keeps the selection |
| `Form.LoadSubmitRoundTrip` | src/components/Formulario.jsx:25-77 | selecting a record with an id and submitting without edits leaves the collection unchanged, when every element with that id equals the record |
| `Form.SelectionWithoutIdCreates` | src/components/Formulario.jsx:25-98 | a selection with keys but an empty id fills the draft, yet the submit appends under the new id and keeps the selection; the button shows the create label |
| `Form.EditSubmitReturnsToCreate` | src/components/Formulario.jsx:69-90 | after an accepted edit submit the button shows the create label and the next accepted submit appends |
| `Form.ResubmitWithoutEditsRejected` | src/components/Formulario.jsx:54-105 | after an accepted submit, a second submit without edits is rejected and only raises the error flag |
| `Form.EditOneFieldThenSubmit` | src/components/Formulario.jsx:25-105 | selecting a record, changing one field to a non-empty value and submitting changes only that field of the elements with the record's id, keeps all other elements, clears the selection and resets the draft |
| `Form.Formulario.constructor` | src/components/Formulario.jsx:14-33 | on mount the draft is empty, `error` is false, and the effect then runs once on the selection passed in |
| `Form.Formulario.Select` | src/components/Formulario.jsx:25-33 | setting the selection leaves the state `Load` describes |
| `Form.Formulario.SetField` | src/components/Formulario.jsx:128-188 | an input's change handler updates that one draft field and nothing else |
| `Form.Formulario.HandleSubmit` | src/components/Formulario.jsx:52-106 | the field-by-field submit handler leaves exactly the state `Submit` describes |

## Left out

- The internals of `generarID` (`Date.now()` and `Math.random()`): they read the clock and a random source. The generated id is an input, and no uniqueness is claimed.
- `Swal.fire` success toasts: fire-and-forget calls into a foreign library that do not affect the state.
- JSX rendering, CSS classes, `e.preventDefault()` and PropTypes. `Header.jsx` and `Error.jsx` are presentational only. `Error.jsx` shows the message when `error` is true.
- React's batching and re-render scheduling: the setters are modelled as immediate sequential assignments.
- React compares effect dependencies by object identity. Setting the selection to the very object it already holds does not re-run the effect. `Form.Formulario.Select` always runs the effect, so it models a selection that changed.
- Values that are not strings: all six record fields are modelled as strings, and a selection with keys has all six of them. A JavaScript object with missing fields (`undefined`) is not modelled.

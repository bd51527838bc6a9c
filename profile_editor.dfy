/** The profile editor form: three text fields edited into one record, and
    a Save button. */
module ProfileEditor {

  /** The editable fields: exactly `username`, `bio` and `phone_number`. */
  datatype Field = Username | Bio | PhoneNumber

  /** The edit data object; a key is absent until it is seeded or edited. */
  type EditData = map<Field, string>

  /** `handleChange(field, value)`: `{ ...data, [field]: value }`. */
  function HandleChange(data: EditData, field: Field, value: string): (r: EditData)
    ensures field in r && r[field] == value
    ensures r.Keys == data.Keys + {field}
    ensures forall g :: g in data && g != field ==> r[g] == data[g]
  {
    data[field := value]
  }

  /** Two changes to one field leave the last value. */
  lemma LastChangeWins(data: EditData, field: Field, v: string, w: string)
    ensures HandleChange(HandleChange(data, field, v), field, w) == HandleChange(data, field, w)
  {
  }

  /** Changes to different fields commute. */
  lemma ChangesCommute(data: EditData, f: Field, v: string, g: Field, w: string)
    requires f != g
    ensures HandleChange(HandleChange(data, f, v), g, w) == HandleChange(HandleChange(data, g, w), f, v)
  {
  }
}

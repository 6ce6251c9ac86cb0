/**
 * The personal name both formatters read, and the derivations their token
 * tables attach to format letters.
 *
 * A field is `None` for `null` / `undefined`; `Some("")` is just as falsy in
 * JavaScript, and `Field` gives `""` for both, which is what `x || ''` does.
 */
module Names {
  import opened Wrappers
  import opened AsciiCase

  datatype Name = Name(firstName: Option<string>, middleName: Option<string>, lastName: Option<string>)

  /** Which field a token reads. */
  datatype Part = First | Middle | Last

  /** What a token does with the field it reads. */
  datatype Transform =
    | AsIs          // `name.x || ''`
    | ToLower       // `(name.x || '').toLowerCase()`
    | ToUpper       // `(name.x || '').toUpperCase()`
    | InitialUpper  // `name.x ? name.x.charAt(0).toUpperCase() : ''`
    | InitialLower  // `name.x ? name.x.charAt(0).toLowerCase() : ''`

  /** One entry of a token table: the key the regex matches and its derivation. */
  datatype Entry = Entry(key: string, part: Part, transform: Transform)

  /** The raw, possibly absent, field a token reads. */
  function Slot(name: Name, part: Part): Option<string>
  {
    match part
    case First => name.firstName
    case Middle => name.middleName
    case Last => name.lastName
  }

  /** `name.x || ''`: absent and empty fields both read as `""`. */
  function Field(name: Name, part: Part): (v: string)
    ensures v == "" <==> Slot(name, part) == None || Slot(name, part) == Some("")
    ensures v != "" ==> Slot(name, part) == Some(v)
  {
    var o := Slot(name, part);
    if o.Some? then o.value else ""
  }

  predicate IsInitial(t: Transform) { t == InitialUpper || t == InitialLower }

  predicate LowersCase(t: Transform) { t == ToLower || t == InitialLower }

  predicate UppersCase(t: Transform) { t == ToUpper || t == InitialUpper }

  /**
   * `v.charAt(0).toUpperCase()` or `.toLowerCase()` behind a truthiness test:
   * nothing for an empty field, otherwise the one-character prefix re-cased
   * the way the whole-field transforms re-case it.
   */
  function Initial(v: string, upper: bool): (r: string)
    ensures |r| == if v == "" then 0 else 1
    ensures v != "" ==> r == if upper then Upper(v[..1]) else Lower(v[..1])
    ensures upper ==> NoLowerLetter(r)
    ensures !upper ==> NoUpperLetter(r)
  {
    if v == "" then "" else if upper then [UpperChar(v[0])] else [LowerChar(v[0])]
  }

  /**
   * The value a token table entry's lambda returns for `name`: nothing for an
   * empty or absent field; the field itself, or all of it re-cased, for the
   * whole-field transforms; at most one re-cased character for the initials.
   */
  function Derive(e: Entry, name: Name): (r: string)
    ensures var v := Field(name, e.part);
      && (v == "" ==> r == "")
      && (e.transform == AsIs ==> r == v)
      && (!IsInitial(e.transform) ==> |r| == |v|)
      && (IsInitial(e.transform) ==> |r| == (if v == "" then 0 else 1))
      && (e.transform == InitialUpper && v != "" ==> r[0] == UpperChar(v[0]))
      && (e.transform == InitialLower && v != "" ==> r[0] == LowerChar(v[0]))
      && (e.transform == ToLower ==> forall i :: 0 <= i < |r| ==> r[i] == LowerChar(v[i]))
      && (e.transform == ToUpper ==> forall i :: 0 <= i < |r| ==> r[i] == UpperChar(v[i]))
      && (LowersCase(e.transform) ==> NoUpperLetter(r))
      && (UppersCase(e.transform) ==> NoLowerLetter(r))
  {
    var v := Field(name, e.part);
    match e.transform
    case AsIs => v
    case ToLower => Lower(v)
    case ToUpper => Upper(v)
    case InitialUpper => Initial(v, true)
    case InitialLower => Initial(v, false)
  }
}

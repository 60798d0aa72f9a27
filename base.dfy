/** Small value types shared by the whole model: optional values, record
    identifiers and the shapes that fields of a JSON request body take. */
module Base {

  datatype Option<+T> = None | Some(value: T)

  /** A value, or the error thrown instead of it. */
  datatype Result<+T> = Success(value: T) | Failure(error: string)

  /** A primary key. The source uses random UUIDs (uuid4); here only their
      identity matters, so a UUID is a number wrapped in its own type. */
  datatype Uuid = Uuid(bits: nat)

  /** A point in time as handed out by the clock (`datetime.utcnow()`). */
  type Instant = nat

  /** A value of a JSON request body as the handlers use it. `Null` also
      stands for a key that is absent, since `data.get(key)` answers None
      for both. A text carries what `float(text)` makes of it: None when
      `float` raises. */
  datatype Json = Null | Number(n: int) | Text(s: string, parsed: Option<int>)

  /** Python truthiness of an optional text field: absent, null and "" are falsy. */
  predicate Given(s: Option<string>)
  {
    s.Some? && s.value != ""
  }

  /** Python truthiness of a body value: null, 0 and "" are falsy. */
  predicate Truthy(j: Json)
  {
    match j
    case Null => false
    case Number(n) => n != 0
    case Text(s, _) => s != ""
  }

  /** `float(value)`: None when Python raises (a null, or a text that is not
      a number). */
  function Float(j: Json): (r: Option<int>)
    ensures j.Number? ==> r == Some(j.n)
    ensures j.Null? ==> r.None?
  {
    match j
    case Null => None
    case Number(n) => Some(n)
    case Text(_, p) => p
  }

  /** An update request that either leaves a field alone or sets it. */
  datatype Patch<T> = Keep | Set(value: T)

  function Apply<T>(p: Patch<T>, old_: T): T
  {
    match p
    case Keep => old_
    case Set(v) => v
  }

  /** ASCII upper case, the part of `str.upper()` the model needs. */
  function UpperChar(c: char): char
  {
    if 'a' <= c <= 'z' then (c as int - 32) as char else c
  }

  /** ASCII lower case, the part of `str.lower()` the model needs. */
  function LowerChar(c: char): char
  {
    if 'A' <= c <= 'Z' then (c as int + 32) as char else c
  }

  function Upper(s: string): (r: string)
    ensures |r| == |s|
    ensures forall i :: 0 <= i < |s| ==> r[i] == UpperChar(s[i])
  {
    if s == [] then [] else [UpperChar(s[0])] + Upper(s[1..])
  }

  function Lower(s: string): (r: string)
    ensures |r| == |s|
    ensures forall i :: 0 <= i < |s| ==> r[i] == LowerChar(s[i])
  {
    if s == [] then [] else [LowerChar(s[0])] + Lower(s[1..])
  }

  /** Lower-casing twice is lower-casing once. */
  lemma LowerIdempotent(s: string)
    ensures Lower(Lower(s)) == Lower(s)
  {
  }
}

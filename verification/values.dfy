/** The decoded contents of an SPM.mat file, the values the extraction rules
    produce, and the navigation primitives (field access, integer indexing,
    length) that the rules apply to decoded values. */
module Values {

  /** A decoded MATLAB value.  Every numpy array (numeric, char, cell or
      struct, of any shape) is an `Arr` whose elements are what iterating
      it yields: the rows of a 2-D array are themselves `Arr`s.  A struct
      element (a numpy record) is a `Rec`; a string element is a `Str`; a
      numeric element is a `Num`. */
  datatype Value =
    | Str(s: string)
    | Num(n: int)
    | Arr(elems: seq<Value>)
    | Rec(fields: map<string, Value>)

  /** The handle returned by a successful image load. */
  datatype Handle = Handle(id: nat)

  /** A value placed into the extracted record: a single Python value, a
      Python list of values, a boolean flag, an image handle, or the list
      of contrast dictionaries. */
  datatype Item =
    | Val(v: Value)
    | List(vs: seq<Value>)
    | Flag(b: bool)
    | Image(h: Handle)
    | Contrasts(entries: seq<map<string, Item>>)

  /** One Python dictionary of extracted fields. */
  type Entry = map<string, Item>

  /** The exceptions the reader can raise. */
  datatype Error =
    | DecodeError             // loadmat could not read the file
    | NoSpmVariable           // the explicit 'Bad SPM.mat' exception
    | NoSuchField(name: string)
    | NotAStruct              // field access on something without fields
    | NotAnArray              // integer indexing or len() on a non-array
    | IndexOutOfRange(index: nat)
    | NotAString              // re.sub / re.search / lower() on a non-string
    | NotIterable             // iterating a value that is not iterable

  datatype Result<T> = Ok(value: T) | Err(error: Error)

  datatype Option<T> = None | Some(value: T)

  /** `v[name]`: on a record, the named field; on an array of records, the
      array of that field taken from every element (numpy projects a field
      over a structured array and keeps its shape). */
  function Field(v: Value, name: string): (r: Result<Value>)
    ensures v.Rec? ==> (r.Ok? <==> name in v.fields)
    ensures v.Rec? && r.Ok? ==> r.value == v.fields[name]
    ensures v.Arr? && r.Ok? ==> r.value.Arr? && |r.value.elems| == |v.elems|
    ensures v.Arr? && r.Ok? ==>
      forall i :: 0 <= i < |v.elems| ==> Field(v.elems[i], name) == Ok(r.value.elems[i])
    ensures v.Arr? ==> (r.Ok? <==> forall i :: 0 <= i < |v.elems| ==> Field(v.elems[i], name).Ok?)
    ensures v.Str? || v.Num? ==> r == Err(NotAStruct)
    decreases v, 1
  {
    match v
    case Rec(m) => if name in m then Ok(m[name]) else Err(NoSuchField(name))
    case Arr(es) =>
      (match FieldOfAll(es, name)
       case Ok(fs) => Ok(Arr(fs))
       case Err(e) => Err(e))
    case _ => Err(NotAStruct)
  }

  /** The named field projected from each of `es`, failing on the first
      element that has no such field. */
  function FieldOfAll(es: seq<Value>, name: string): (r: Result<seq<Value>>)
    ensures r.Ok? ==> |r.value| == |es|
    ensures r.Ok? ==> forall i :: 0 <= i < |es| ==> Field(es[i], name) == Ok(r.value[i])
    ensures r.Ok? <==> forall i :: 0 <= i < |es| ==> Field(es[i], name).Ok?
    decreases es, 0
  {
    if es == [] then Ok([])
    else
      match Field(es[0], name)
      case Err(e) => Err(e)
      case Ok(f) =>
        match FieldOfAll(es[1..], name)
        case Err(e) => Err(e)
        case Ok(fs) => Ok([f] + fs)
  }

  /** `v[i]` for a non-negative integer index. */
  function Index(v: Value, i: nat): (r: Result<Value>)
    ensures r.Ok? <==> v.Arr? && i < |v.elems|
    ensures r.Ok? ==> r.value == v.elems[i]
  {
    match v
    case Arr(es) => if i < |es| then Ok(es[i]) else Err(IndexOutOfRange(i))
    case _ => Err(NotAnArray)
  }

  /** `len(v)`. */
  function Len(v: Value): (r: Result<nat>)
    ensures r.Ok? <==> v.Arr?
    ensures r.Ok? ==> r.value == |v.elems|
  {
    match v
    case Arr(es) => Ok(|es|)
    case _ => Err(NotAnArray)
  }

  /** One step of a navigation path: a field access or an integer index. */
  datatype Step = Key(name: string) | At(index: nat)

  /** Follows a path of field accesses and indexes from `v`, failing at the
      first step that fails. */
  function Walk(v: Value, path: seq<Step>): (r: Result<Value>)
    decreases |path|
  {
    if path == [] then Ok(v)
    else
      var next := match path[0]
        case Key(name) => Field(v, name)
        case At(i) => Index(v, i);
      match next
      case Err(e) => Err(e)
      case Ok(w) => Walk(w, path[1..])
  }

  /** Walking a concatenation of two paths is walking the first and then
      walking the second from where the first ended. */
  lemma {:induction false} WalkAppend(v: Value, p: seq<Step>, q: seq<Step>)
    ensures Walk(v, p + q) ==
      match Walk(v, p)
      case Err(e) => Err(e)
      case Ok(w) => Walk(w, q)
    decreases |p|
  {
    if p == [] {
      assert p + q == q;
    } else {
      assert (p + q)[0] == p[0];
      assert (p + q)[1..] == p[1..] + q;
      var next := match p[0]
        case Key(name) => Field(v, name)
        case At(i) => Index(v, i);
      if next.Ok? {
        WalkAppend(next.value, p[1..], q);
      }
    }
  }

  /** `v` wrapped in `depth` single-element arrays. */
  function Wrap(v: Value, depth: nat): (r: Value)
    ensures depth > 0 ==> r.Arr? && |r.elems| == 1
  {
    if depth == 0 then v else Arr([Wrap(v, depth - 1)])
  }
}

/** JavaScript values, what JSON makes of them, and which of them come back unchanged. */
module JsonValues {
  import opened Orders

  datatype List<T> = Nil | Cons(head: T, tail: List<T>)

  /** `Number` is a finite number other than minus zero; `Instance` an object with a prototype of
      its own; `Unwritable` a value JSON refuses, such as a BigInt or a cyclic structure. */
  datatype Value =
    | Undefined
    | Null
    | Bool(b: bool)
    | Number(n: real)
    | NegativeZero
    | NonFinite
    | Text(s: string)
    | Date(iso: string)
    | Array(elems: List<Value>)
    | Object(fields: List<(string, Value)>)
    | Instance(fields: List<(string, Value)>)
    | Unwritable

  datatype Json =
    | JNull
    | JBool(b: bool)
    | JNumber(n: real)
    | JText(s: string)
    | JArray(elems: List<Json>)
    | JObject(fields: List<(string, Json)>)

  /** `JSON.stringify(v ?? null)`, which throws on a value it cannot write. */
  function Write(v: Value): Option<Json> {
    match v
    case Undefined => Some(JNull)
    case Null => Some(JNull)
    case Bool(b) => Some(JBool(b))
    case Number(n) => Some(JNumber(n))
    case NegativeZero => Some(JNumber(0.0))
    case NonFinite => Some(JNull)
    case Text(s) => Some(JText(s))
    case Date(iso) => Some(JText(iso))
    case Array(elems) => (match WriteAll(elems) case Some(js) => Some(JArray(js)) case None => None)
    case Object(fields) => (match WriteFields(fields) case Some(js) => Some(JObject(js)) case None => None)
    case Instance(fields) => (match WriteFields(fields) case Some(js) => Some(JObject(js)) case None => None)
    case Unwritable => None
  }

  function WriteAll(vs: List<Value>): Option<List<Json>> {
    match vs
    case Nil => Some(Nil)
    case Cons(v, rest) =>
      var j, js := Write(v), WriteAll(rest);
      if j.Some? && js.Some? then Some(Cons(j.value, js.value)) else None
  }

  /** A field whose value is undefined is left out. */
  function WriteFields(fs: List<(string, Value)>): Option<List<(string, Json)>> {
    match fs
    case Nil => Some(Nil)
    case Cons(f, rest) =>
      var j, js := Write(f.1), WriteFields(rest);
      if j.None? || js.None? then None else if f.1.Undefined? then js else Some(Cons((f.0, j.value), js.value))
  }

  /** `JSON.parse`. */
  function Read(j: Json): Value {
    match j
    case JNull => Null
    case JBool(b) => Bool(b)
    case JNumber(n) => Number(n)
    case JText(s) => Text(s)
    case JArray(elems) => Array(ReadAll(elems))
    case JObject(fields) => Object(ReadFields(fields))
  }

  function ReadAll(js: List<Json>): List<Value> {
    match js
    case Nil => Nil
    case Cons(j, rest) => Cons(Read(j), ReadAll(rest))
  }

  function ReadFields(fs: List<(string, Json)>): List<(string, Value)> {
    match fs
    case Nil => Nil
    case Cons(f, rest) => Cons((f.0, Read(f.1)), ReadFields(rest))
  }

  /** Made of null, booleans, ordinary numbers, text, arrays and plain objects, all the way down. */
  predicate Plain(v: Value) {
    match v
    case Null => true
    case Bool(_) => true
    case Number(_) => true
    case Text(_) => true
    case Array(elems) => AllPlain(elems)
    case Object(fields) => FieldsPlain(fields)
    case _ => false
  }

  predicate AllPlain(vs: List<Value>) {
    match vs
    case Nil => true
    case Cons(v, rest) => Plain(v) && AllPlain(rest)
  }

  predicate FieldsPlain(fs: List<(string, Value)>) {
    match fs
    case Nil => true
    case Cons(f, rest) => Plain(f.1) && FieldsPlain(rest)
  }

  /** Written and read again, the value is the same. */
  predicate Survives(v: Value) { Write(v).Some? && Read(Write(v).value) == v }

  /** Exactly the plain values survive: a single undefined, date, NaN or instance anywhere inside
      is enough to come back changed. */
  lemma {:induction false} SurvivesIffPlain(v: Value)
    ensures Survives(v) <==> Plain(v)
  {
    match v
    case Array(elems) => AllSurviveIffPlain(elems);
    case Object(fields) => FieldsSurviveIffPlain(fields);
    case _ =>
  }

  lemma {:induction false} AllSurviveIffPlain(vs: List<Value>)
    ensures (WriteAll(vs).Some? && ReadAll(WriteAll(vs).value) == vs) <==> AllPlain(vs)
  {
    match vs
    case Nil =>
    case Cons(v, rest) =>
      SurvivesIffPlain(v);
      AllSurviveIffPlain(rest);
  }

  lemma {:induction false} FieldsSurviveIffPlain(fs: List<(string, Value)>)
    ensures (WriteFields(fs).Some? && ReadFields(WriteFields(fs).value) == fs) <==> FieldsPlain(fs)
  {
    match fs
    case Nil =>
    case Cons(f, rest) =>
      SurvivesIffPlain(f.1);
      FieldsSurviveIffPlain(rest);
      if f.1.Undefined? && WriteFields(fs).Some? {
        FewerFields(rest);
        SameLength(WriteFields(fs).value);
      }
  }

  function Length<T>(l: List<T>): nat { if l.Nil? then 0 else 1 + Length(l.tail) }

  lemma {:induction false} FewerFields(fs: List<(string, Value)>)
    ensures WriteFields(fs).Some? ==> Length(WriteFields(fs).value) <= Length(fs)
  {
    if fs.Cons? {
      FewerFields(fs.tail);
    }
  }

  lemma {:induction false} SameLength(fs: List<(string, Json)>)
    ensures Length(ReadFields(fs)) == Length(fs)
  {
    if fs.Cons? {
      SameLength(fs.tail);
    }
  }

  /** Whatever was read from JSON is plain, and is written as the JSON it came from. */
  lemma {:induction false} ReadIsPlain(j: Json)
    ensures Plain(Read(j)) && Write(Read(j)) == Some(j)
  {
    match j
    case JArray(elems) => ReadAllPlain(elems);
    case JObject(fields) => ReadFieldsPlain(fields);
    case _ =>
  }

  lemma {:induction false} ReadAllPlain(js: List<Json>)
    ensures AllPlain(ReadAll(js)) && WriteAll(ReadAll(js)) == Some(js)
  {
    if js.Cons? {
      ReadIsPlain(js.head);
      ReadAllPlain(js.tail);
    }
  }

  lemma {:induction false} ReadFieldsPlain(fs: List<(string, Json)>)
    ensures FieldsPlain(ReadFields(fs)) && WriteFields(ReadFields(fs)) == Some(fs)
  {
    if fs.Cons? {
      ReadIsPlain(fs.head.1);
      ReadFieldsPlain(fs.tail);
    }
  }
}

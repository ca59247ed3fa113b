/** JSON text, written and parsed. Text is kept as its tokens: how a token is spelled plays no part. */
module JsonText {
  import opened Orders
  import opened JsonValues

  datatype Token =
    | OpenBrace | CloseBrace | OpenBracket | CloseBracket | Comma | Colon
    | NullWord | BoolWord(b: bool) | Numeral(n: real) | Quoted(s: string)

  type Tokens = seq<Token>

  // ---- Writing ---------------------------------------------------------------------------------------

  function Print(j: Json): Tokens {
    match j
    case JNull => [NullWord]
    case JBool(b) => [BoolWord(b)]
    case JNumber(n) => [Numeral(n)]
    case JText(s) => [Quoted(s)]
    case JArray(elems) => [OpenBracket] + (if elems.Nil? then [CloseBracket] else PrintElems(elems))
    case JObject(fields) => [OpenBrace] + (if fields.Nil? then [CloseBrace] else PrintFields(fields))
  }

  function PrintElems(js: List<Json>): Tokens
    requires js.Cons?
  {
    Print(js.head) + if js.tail.Nil? then [CloseBracket] else [Comma] + PrintElems(js.tail)
  }

  function PrintFields(fs: List<(string, Json)>): Tokens
    requires fs.Cons?
  {
    [Quoted(fs.head.0), Colon] + Print(fs.head.1)
    + if fs.tail.Nil? then [CloseBrace] else [Comma] + PrintFields(fs.tail)
  }

  // ---- Parsing ---------------------------------------------------------------------------------------

  /** The first value of the text, and the text after it. */
  function ParseValue(t: Tokens): (r: Option<(Json, Tokens)>)
    ensures r.Some? ==> |r.value.1| < |t|
    decreases |t|, 0
  {
    if t == [] then None
    else
      var rest := t[1..];
      match t[0]
      case NullWord => Some((JNull, rest))
      case BoolWord(b) => Some((JBool(b), rest))
      case Numeral(n) => Some((JNumber(n), rest))
      case Quoted(s) => Some((JText(s), rest))
      case OpenBracket =>
        if rest != [] && rest[0] == CloseBracket then Some((JArray(Nil), rest[1..]))
        else (match ParseElems(rest) case Some(r) => Some((JArray(r.0), r.1)) case None => None)
      case OpenBrace =>
        if rest != [] && rest[0] == CloseBrace then Some((JObject(Nil), rest[1..]))
        else (match ParseFields(rest) case Some(r) => Some((JObject(r.0), r.1)) case None => None)
      case _ => None
  }

  /** The elements of an array up to its closing bracket. */
  function ParseElems(t: Tokens): (r: Option<(List<Json>, Tokens)>)
    ensures r.Some? ==> |r.value.1| < |t|
    decreases |t|, 1
  {
    match ParseValue(t)
    case None => None
    case Some((j, rest)) =>
      if rest == [] then None
      else if rest[0] == CloseBracket then Some((Cons(j, Nil), rest[1..]))
      else if rest[0] != Comma then None
      else match ParseElems(rest[1..]) case Some(r) => Some((Cons(j, r.0), r.1)) case None => None
  }

  /** The fields of an object up to its closing brace. */
  function ParseFields(t: Tokens): (r: Option<(List<(string, Json)>, Tokens)>)
    ensures r.Some? ==> |r.value.1| < |t|
    decreases |t|, 1
  {
    if |t| < 2 || !t[0].Quoted? || t[1] != Colon then None
    else
      match ParseValue(t[2..])
      case None => None
      case Some((j, rest)) =>
        if rest == [] then None
        else if rest[0] == CloseBrace then Some((Cons((t[0].s, j), Nil), rest[1..]))
        else if rest[0] != Comma then None
        else match ParseFields(rest[1..]) case Some(r) => Some((Cons((t[0].s, j), r.0), r.1)) case None => None
  }

  /** `JSON.parse`: one value and nothing after it. */
  function ParseText(t: Tokens): Option<Json> {
    match ParseValue(t)
    case Some((j, rest)) => if rest == [] then Some(j) else None
    case None => None
  }

  // ---- Round trips -----------------------------------------------------------------------------------

  /** A written value is parsed back, whatever follows it. */
  lemma {:induction false} PrintParses(j: Json, rest: Tokens)
    ensures ParseValue(Print(j) + rest) == Some((j, rest))
  {
    hide ParseValue, ParseElems, ParseFields, PrintElems, PrintFields;
    match j
    case JArray(elems) =>
      if elems.Cons? {
        ElemsParse(elems, rest);
        ElemsStart(elems);
        OpenedArray(PrintElems(elems) + rest);
        assert Print(j) + rest == [OpenBracket] + (PrintElems(elems) + rest);
      } else {
        EmptyParses(rest);
        assert Print(j) + rest == [OpenBracket, CloseBracket] + rest;
      }
    case JObject(fields) =>
      if fields.Cons? {
        FieldsParse(fields, rest);
        FieldsStart(fields);
        OpenedObject(PrintFields(fields) + rest);
        assert Print(j) + rest == [OpenBrace] + (PrintFields(fields) + rest);
      } else {
        EmptyParses(rest);
        assert Print(j) + rest == [OpenBrace, CloseBrace] + rest;
      }
    case _ => ScalarParses(j, rest);
  }

  lemma ScalarParses(j: Json, rest: Tokens)
    requires !j.JArray? && !j.JObject?
    ensures ParseValue(Print(j) + rest) == Some((j, rest))
  {
    assert (Print(j) + rest)[1..] == rest;
  }

  lemma EmptyParses(rest: Tokens)
    ensures ParseValue([OpenBracket, CloseBracket] + rest) == Some((JArray(Nil), rest))
    ensures ParseValue([OpenBrace, CloseBrace] + rest) == Some((JObject(Nil), rest))
  {
    assert ([OpenBracket, CloseBracket] + rest)[1..][1..] == rest;
    assert ([OpenBrace, CloseBrace] + rest)[1..][1..] == rest;
  }

  lemma OpenedArray(t: Tokens)
    requires t != [] && t[0] != CloseBracket
    ensures ParseValue([OpenBracket] + t)
            == match ParseElems(t) case Some(r) => Some((JArray(r.0), r.1)) case None => None
  {
    assert ([OpenBracket] + t)[1..] == t;
    hide ParseElems;
  }

  lemma OpenedObject(t: Tokens)
    requires t != [] && t[0] != CloseBrace
    ensures ParseValue([OpenBrace] + t)
            == match ParseFields(t) case Some(r) => Some((JObject(r.0), r.1)) case None => None
  {
    assert ([OpenBrace] + t)[1..] == t;
    hide ParseFields;
  }

  lemma ElemsStart(js: List<Json>)
    requires js.Cons?
    ensures PrintElems(js) != [] && PrintElems(js)[0] != CloseBracket
  {
    assert Print(js.head) != [] && Print(js.head)[0] != CloseBracket;
  }

  lemma FieldsStart(fs: List<(string, Json)>)
    requires fs.Cons?
    ensures PrintFields(fs) != [] && PrintFields(fs)[0] != CloseBrace
  {
  }

  function AfterElem(tail: List<Json>): Tokens {
    if tail.Nil? then [CloseBracket] else [Comma] + PrintElems(tail)
  }

  function AfterField(tail: List<(string, Json)>): Tokens {
    if tail.Nil? then [CloseBrace] else [Comma] + PrintFields(tail)
  }

  lemma {:induction false} ElemsParse(js: List<Json>, rest: Tokens)
    requires js.Cons?
    ensures ParseElems(PrintElems(js) + rest) == Some((js, rest))
  {
    var after := AfterElem(js.tail) + rest;
    ElemsUnfold(js, rest);
    hide *;
    PrintParses(js.head, after);
    ElemParses(js.head, Print(js.head), after);
    if js.tail.Cons? {
      ElemsParse(js.tail, rest);
    }
  }

  lemma ElemsUnfold(js: List<Json>, rest: Tokens)
    requires js.Cons?
    ensures var after := AfterElem(js.tail) + rest;
      && PrintElems(js) + rest == Print(js.head) + after
      && (js.tail.Nil? ==> after[0] == CloseBracket && after[1..] == rest)
      && (js.tail.Cons? ==> after[0] == Comma && after[1..] == PrintElems(js.tail) + rest)
  {
    Assoc(Print(js.head), AfterElem(js.tail), rest);
    if js.tail.Nil? {
      Headed(CloseBracket, [], rest);
    } else {
      Headed(Comma, PrintElems(js.tail), rest);
    }
    hide Print;
  }

  lemma Assoc(a: Tokens, b: Tokens, c: Tokens)
    ensures (a + b) + c == a + (b + c)
  {
  }

  lemma Headed(t: Token, text: Tokens, rest: Tokens)
    ensures var u := [t] + text + rest; u[0] == t && u[1..] == text + rest
    ensures text == [] ==> [t] + text == [t] && ([t] + rest)[1..] == rest
  {
  }

  /** One element, and what comes after it. */
  lemma ElemParses(j: Json, text: Tokens, after: Tokens)
    requires ParseValue(text + after) == Some((j, after)) && after != []
    ensures ParseElems(text + after)
            == if after[0] == CloseBracket then Some((Cons(j, Nil), after[1..]))
               else if after[0] != Comma then None
               else match ParseElems(after[1..]) case Some(r) => Some((Cons(j, r.0), r.1)) case None => None
  {
    hide ParseValue;
  }

  lemma {:induction false} FieldsParse(fs: List<(string, Json)>, rest: Tokens)
    requires fs.Cons?
    ensures ParseFields(PrintFields(fs) + rest) == Some((fs, rest))
  {
    var after := AfterField(fs.tail) + rest;
    FieldsUnfold(fs, rest);
    hide *;
    PrintParses(fs.head.1, after);
    FieldParses(fs.head.0, fs.head.1, Print(fs.head.1), after);
    if fs.tail.Cons? {
      FieldsParse(fs.tail, rest);
    }
  }

  lemma FieldsUnfold(fs: List<(string, Json)>, rest: Tokens)
    requires fs.Cons?
    ensures var after := AfterField(fs.tail) + rest;
      && PrintFields(fs) + rest == [Quoted(fs.head.0), Colon] + (Print(fs.head.1) + after)
      && (fs.tail.Nil? ==> after[0] == CloseBrace && after[1..] == rest)
      && (fs.tail.Cons? ==> after[0] == Comma && after[1..] == PrintFields(fs.tail) + rest)
  {
    Assoc([Quoted(fs.head.0), Colon] + Print(fs.head.1), AfterField(fs.tail), rest);
    Assoc([Quoted(fs.head.0), Colon], Print(fs.head.1), AfterField(fs.tail) + rest);
    if fs.tail.Nil? {
      Headed(CloseBrace, [], rest);
    } else {
      Headed(Comma, PrintFields(fs.tail), rest);
    }
    hide Print;
  }

  /** One field, and what comes after it. */
  lemma FieldParses(name: string, j: Json, text: Tokens, after: Tokens)
    requires ParseValue(text + after) == Some((j, after)) && after != []
    ensures ParseFields([Quoted(name), Colon] + (text + after))
            == if after[0] == CloseBrace then Some((Cons((name, j), Nil), after[1..]))
               else if after[0] != Comma then None
               else match ParseFields(after[1..]) case Some(r) => Some((Cons((name, j), r.0), r.1)) case None => None
  {
    var t := [Quoted(name), Colon] + (text + after);
    assert t[2..] == text + after;
    hide ParseValue;
  }

  /** What is written is what is parsed, so no two values are written alike. */
  lemma ParsePrint(j: Json)
    ensures ParseText(Print(j)) == Some(j)
  {
    PrintParses(j, []);
    assert Print(j) + [] == Print(j);
  }

  // ---- Objects of one field --------------------------------------------------------------------------

  /** The text the engine wraps around a result: an object with the one field `name`. */
  function Wrap(name: string, t: Tokens): Tokens { [OpenBrace, Quoted(name), Colon] + t + [CloseBrace] }

  /** Wrapping written text is writing an object. */
  lemma WrapIsPrint(name: string, j: Json)
    ensures Wrap(name, Print(j)) == Print(JObject(Cons((name, j), Nil)))
    ensures ParseText(Wrap(name, Print(j))) == Some(JObject(Cons((name, j), Nil)))
  {
    var fields := Cons((name, j), Nil);
    ParsePrint(JObject(fields));
    hide ParseText, Print;
    assert PrintFields(fields) == [Quoted(name), Colon] + Print(j) + [CloseBrace];
    PrintOfFields(fields);
    assert [OpenBrace] + ([Quoted(name), Colon] + Print(j) + [CloseBrace])
      == [OpenBrace, Quoted(name), Colon] + Print(j) + [CloseBrace];
  }

  lemma PrintOfFields(fields: List<(string, Json)>)
    requires fields.Cons?
    ensures Print(JObject(fields)) == [OpenBrace] + PrintFields(fields)
  {
  }

  /** A wrapped text tells its field and what is inside. */
  lemma WrapDetermines(name: string, t: Tokens, name': string, t': Tokens)
    requires Wrap(name, t) == Wrap(name', t')
    ensures name == name' && t == t'
  {
    var w, w' := Wrap(name, t), Wrap(name', t');
    assert w[1] == Quoted(name) && w'[1] == Quoted(name');
    assert t == w[3..|w| - 1] && t' == w'[3..|w'| - 1];
  }

  /** A field of a parsed value; only objects have any, and the last one of a name counts. */
  function Member(j: Json, name: string): Option<Json> {
    if j.JObject? then LastField(j.fields, name) else None
  }

  function LastField(fs: List<(string, Json)>, name: string): Option<Json> {
    match fs
    case Nil => None
    case Cons(f, rest) =>
      var later := LastField(rest, name);
      if later.Some? then later else if f.0 == name then Some(f.1) else None
  }
}

/** The slice of the Python runtime the scrapers lean on: decoded JSON values,
    the exceptions the formatting code can raise, and the operators it applies
    to JSON values (subscription, iteration, truthiness, `* 1000000`, str()). */
module Python {
  import opened Digits

  datatype Option<T> = None | Some(value: T)

  /** A value decoded by json.loads / Response.json(). An object lists its
      entries in insertion order. JSON numbers with a fraction or an exponent
      (Python floats) are not part of the model. */
  datatype Json =
    | Null
    | Bool(b: bool)
    | Num(n: int)
    | Str(s: string)
    | Arr(items: seq<Json>)
    | Obj(fields: seq<(string, Json)>)

  /** The exceptions that can interrupt the code being modelled. */
  datatype PyError =
    | KeyError(key: Json)     // a dict has no such key
    | TypeError               // wrong operand type: None["x"], [1]["x"], iter(5), None * 2
    | IndexError              // [][0], ""[0]
    | ValueError              // strptime: text does not match, or no such day
    | OverflowError           // a datetime outside years 1 to 9999
    | AttributeError          // .get on a value that is not a dict
    | JsonDecodeError         // a response body that is not JSON

  /** A Python expression either yields a value or raises. */
  datatype Result<T> = Ok(value: T) | Err(error: PyError) {
    predicate IsFailure() { Err? }
    function PropagateFailure<U>(): Result<U>
      requires Err?
    {
      Err(error)
    }
    function Extract(): T
      requires Ok?
    {
      value
    }
  }

  /** How a call into the session code ends: normally, by raising an
      exception, or by exit(), whose SystemExit no `except Exception` catches. */
  datatype Outcome = Normal | Raised(error: PyError) | Exited

  /** Python's truth value of a JSON value. */
  predicate Truthy(j: Json)
  {
    match j
    case Null => false
    case Bool(b) => b
    case Num(n) => n != 0
    case Str(s) => s != ""
    case Arr(items) => items != []
    case Obj(fields) => fields != []
  }

  /** The value of the first entry with the given key. */
  function Lookup(fields: seq<(string, Json)>, key: string): (r: Option<Json>)
    ensures r.Some? <==> exists i :: 0 <= i < |fields| && fields[i].0 == key
    ensures r.Some? ==> exists i :: 0 <= i < |fields| && fields[i] == (key, r.value)
  {
    if fields == [] then None
    else if fields[0].0 == key then Some(fields[0].1)
    else
      var r := Lookup(fields[1..], key);
      assert forall i :: 1 <= i < |fields| ==> fields[i] == fields[1..][i - 1];
      r
  }

  /** `j[key]` for a string key: only a dict can be subscripted by a string. */
  function Subscript(j: Json, key: string): (r: Result<Json>)
    ensures r.Ok? <==> j.Obj? && Lookup(j.fields, key).Some?
    ensures r.Ok? ==> r.value == Lookup(j.fields, key).value
    ensures j.Obj? && r.Err? ==> r.error == KeyError(Str(key))
  {
    match j
    case Obj(fields) =>
      (match Lookup(fields, key)
       case Some(v) => Ok(v)
       case None => Err(KeyError(Str(key))))
    case _ => Err(TypeError)
  }

  /** `j[0]`: the first element of a list, the first character of a string;
      a dict looks the integer 0 up among its (string) keys and fails. */
  function First(j: Json): (r: Result<Json>)
    ensures r.Ok? <==> (j.Arr? && j.items != []) || (j.Str? && j.s != "")
  {
    match j
    case Arr(items) => if items == [] then Err(IndexError) else Ok(items[0])
    case Str(s) => if s == "" then Err(IndexError) else Ok(Str([s[0]]))
    case Obj(_) => Err(KeyError(Num(0)))
    case _ => Err(TypeError)
  }

  /** The keys of a dict, in insertion order. */
  function Keys(fields: seq<(string, Json)>): (r: seq<Json>)
    ensures |r| == |fields|
  {
    seq(|fields|, i requires 0 <= i < |fields| => Str(fields[i].0))
  }

  /** What a `for` loop runs over: the elements of a list, the characters of
      a string, the keys of a dict; other values are not iterable. */
  function Iterate(j: Json): (r: Result<seq<Json>>)
    ensures r.Ok? <==> j.Arr? || j.Str? || j.Obj?
    ensures j.Arr? ==> r == Ok(j.items)
    ensures r.Ok? ==> (|r.value| == 0 <==> !Truthy(j))
  {
    match j
    case Arr(items) => Ok(items)
    case Str(s) => Ok(seq(|s|, i requires 0 <= i < |s| => Str([s[i]])))
    case Obj(fields) => Ok(Keys(fields))
    case _ => Err(TypeError)
  }

  function Repeat<T>(s: seq<T>, k: nat): (r: seq<T>)
    ensures |r| == |s| * k
  {
    if k == 0 then [] else Repeat(s, k - 1) + s
  }

  /** `j * k` for a positive int literal k: ints multiply (a bool counts as 0
      or 1), strings and lists repeat, anything else raises. */
  function Times(j: Json, k: nat): (r: Result<Json>)
    ensures j.Num? ==> r == Ok(Num(j.n * k))
    ensures r.Err? <==> j.Null? || j.Obj?
  {
    match j
    case Num(n) => Ok(Num(n * k))
    case Bool(b) => Ok(Num(if b then k else 0))
    case Str(s) => Ok(Str(Repeat(s, k)))
    case Arr(items) => Ok(Arr(Repeat(items, k)))
    case _ => Err(TypeError)
  }

  function Join(sep: string, parts: seq<string>): (r: string)
    ensures parts == [] ==> r == ""
    ensures |parts| == 1 ==> r == parts[0]
  {
    if parts == [] then ""
    else if |parts| == 1 then parts[0]
    else Join(sep, parts[..|parts| - 1]) + sep + parts[|parts| - 1]
  }

  /** repr() of a JSON value, as it appears inside the str() of a container
      or of a KeyError. Strings are quoted with single quotes; the escaping of
      quotes, backslashes and control characters is not modelled. */
  function Repr(j: Json): string
  {
    match j
    case Str(s) => "'" + s + "'"
    case Arr(items) =>
      "[" + Join(", ", seq(|items|, i requires 0 <= i < |items| => Repr(items[i]))) + "]"
    case Obj(fields) =>
      "{" + Join(", ", seq(|fields|, i requires 0 <= i < |fields| =>
                             "'" + fields[i].0 + "': " + Repr(fields[i].1))) + "}"
    case _ => ScalarStr(j)
  }

  /** str() of None, a bool or an int. */
  function ScalarStr(j: Json): string
    requires j.Null? || j.Bool? || j.Num?
  {
    match j
    case Null => "None"
    case Bool(b) => if b then "True" else "False"
    case Num(n) => IntToString(n)
  }

  /** str(j), which is also what an f-string or str.format() inserts. */
  function ToStr(j: Json): string
  {
    match j
    case Str(s) => s
    case Arr(_) => Repr(j)
    case Obj(_) => Repr(j)
    case _ => ScalarStr(j)
  }

  /** str(e) of an exception. For a KeyError it is the repr of the missing
      key, as in Python; the other messages are represented by the name of
      the exception class. */
  function Describe(e: PyError): string
  {
    match e
    case KeyError(k) => Repr(k)
    case TypeError => "TypeError"
    case IndexError => "IndexError"
    case ValueError => "ValueError"
    case OverflowError => "OverflowError"
    case AttributeError => "AttributeError"
    case JsonDecodeError => "JSONDecodeError"
  }

  /** Printable ASCII: the characters json.dumps writes as they are. */
  predicate IsPrintable(c: char)
  {
    ' ' <= c <= '~'
  }

  /** A character inside a string written by json.dumps with ensure_ascii:
      the quote and the backslash are escaped, the usual control characters
      take their short escapes, and any other character outside printable
      ASCII becomes \uXXXX (a surrogate pair above U+FFFF). */
  function EscapeChar(c: char): (s: string)
    ensures forall i :: 0 <= i < |s| ==> IsPrintable(s[i])
    ensures IsPrintable(c) && c != '"' && c != '\\' ==> s == [c]
  {
    if c == '"' then "\\\""
    else if c == '\\' then "\\\\"
    else if c == '\n' then "\\n"
    else if c == '\r' then "\\r"
    else if c == '\t' then "\\t"
    else if c == '\U{8}' then "\\b"
    else if c == '\U{c}' then "\\f"
    else if IsPrintable(c) then [c]
    else if c as int < 0x10000 then "\\u" + Hex4(c as int)
    else
      var v := c as int - 0x10000;
      "\\u" + Hex4(0xD800 + v / 0x400) + "\\u" + Hex4(0xDC00 + v % 0x400)
  }

  /** The body of a JSON string literal for s. */
  function Escape(s: string): string
  {
    if s == [] then "" else Escape(s[..|s| - 1]) + EscapeChar(s[|s| - 1])
  }

  /** With ensure_ascii the output is printable ASCII, whatever s holds. */
  lemma {:induction false} EscapeIsAscii(s: string)
    ensures forall i :: 0 <= i < |Escape(s)| ==> IsPrintable(Escape(s)[i])
  {
    if s != [] {
      EscapeIsAscii(s[..|s| - 1]);
      var a, b := Escape(s[..|s| - 1]), EscapeChar(s[|s| - 1]);
      assert forall i :: 0 <= i < |a + b| ==> (a + b)[i] == if i < |a| then a[i] else b[i - |a|];
    }
  }

  /** Printable ASCII other than the quote and the backslash is written as it is. */
  lemma {:induction false} EscapePlain(s: string)
    requires forall i :: 0 <= i < |s| ==> IsPrintable(s[i]) && s[i] != '"' && s[i] != '\\'
    ensures Escape(s) == s
  {
    if s != [] {
      EscapePlain(s[..|s| - 1]);
      assert s[..|s| - 1] + [s[|s| - 1]] == s;
    }
  }

  /** json.dumps({"message": m}) */
  function DumpsMessage(m: string): string
  {
    "{\"message\": \"" + Escape(m) + "\"}"
  }

  /** dict.get(key, None): the value of the key, None when it is missing;
      a value that is not a dict has no get. */
  function DictGet(j: Json, key: string): (r: Result<Json>)
    ensures r.Ok? <==> j.Obj?
    ensures r.Ok? ==> r.value == (if Lookup(j.fields, key).Some? then Lookup(j.fields, key).value else Null)
    ensures r.Err? ==> r.error == AttributeError
  {
    match j
    case Obj(fields) =>
      (match Lookup(fields, key)
       case Some(v) => Ok(v)
       case None => Ok(Null))
    case _ => Err(AttributeError)
  }
}

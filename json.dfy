/** JSON values as Python's `json.loads` returns them, Python truthiness over
    them, and the library functions the core treats as opaque. */
module Json {
  import opened Wrappers
  import Text

  /** A table row: column name to cell text. A missing (NaN) cell is an
      absent key. */
  type Row = map<string, string>

  /** A decoded JSON value: `None`, `bool`, `int`, `float`, `str`, `list` or
      `dict`. Floats are modelled by their exact real value. */
  datatype Value =
    | Null
    | Bool(b: bool)
    | Int(i: int)
    | Float(x: real)
    | Str(s: string)
    | Arr(items: seq<Value>)
    | Obj(fields: map<string, Value>)

  /** Python truthiness: `None`, `False`, zero, and empty strings, lists and
      dicts are falsy. */
  predicate Truthy(v: Value) {
    match v
    case Null => false
    case Bool(b) => b
    case Int(i) => i != 0
    case Float(x) => x != 0.0
    case Str(s) => s != ""
    case Arr(items) => items != []
    case Obj(fields) => fields != map[]
  }

  /** Which of the seven types a value has, numbered in declaration order. */
  function Kind(v: Value): nat {
    match v
    case Null => 0
    case Bool(_) => 1
    case Int(_) => 2
    case Float(_) => 3
    case Str(_) => 4
    case Arr(_) => 5
    case Obj(_) => 6
  }

  /** The name Python reports for the value's type (`type(v).__name__`). */
  function TypeName(v: Value): string {
    match v
    case Null => "NoneType"
    case Bool(_) => "bool"
    case Int(_) => "int"
    case Float(_) => "float"
    case Str(_) => "str"
    case Arr(_) => "list"
    case Obj(_) => "dict"
  }

  /** The library code the core calls but does not define:
      - `loads`: `json.loads`, `None` where it raises; the model does not
        tell a `JSONDecodeError` from any other exception it raises;
      - `dumps`: `json.dumps(v, indent=2)` of a decoded value;
      - `dumpsRow`: `json.dumps(row, indent=2)` of an input row, which raises
        (`Failure` with the exception text) for cell values JSON cannot
        encode, such as timestamps read from a spreadsheet;
      - `render`: `str()` of a float, list or dict. */
  datatype Codec = Codec(
    loads: string -> Option<Value>,
    dumps: Value -> string,
    dumpsRow: Row -> Result<string, string>,
    render: Value -> string)

  /** `str(v)` of a decoded value: `None`, `True`/`False`, the decimal
      numeral of an int, the text of a string unquoted, and the codec's
      rendering of the other types. */
  function PyStr(codec: Codec, v: Value): string {
    match v
    case Null => "None"
    case Bool(b) => if b then "True" else "False"
    case Int(i) => Text.IntToString(i)
    case Str(s) => s
    case _ => codec.render(v)
  }

  /** The falsy values are exactly `None`, `False`, `0`, `0.0`, `""`, `[]`
      and `{}`. */
  lemma FalsyValues(v: Value)
    ensures !Truthy(v) <==> v in {Null, Bool(false), Int(0), Float(0.0), Str(""), Arr([]), Obj(map[])}
  {
  }

  /** Values of different types have different type names, one of the
      seven JSON type names. */
  lemma TypeNamesDistinct(v: Value, w: Value)
    ensures TypeName(v) in {"NoneType", "bool", "int", "float", "str", "list", "dict"}
    ensures TypeName(v) == TypeName(w) <==> Kind(v) == Kind(w)
    ensures TypeName(v) == "dict" <==> v.Obj?
    ensures TypeName(v) == "list" <==> v.Arr?
  {
  }

  /** `str()` of the scalar values: `None`, `True`/`False`, an int's text
      with its sign, and a string's own text without quotes. */
  lemma PyStrCases(codec: Codec, v: Value)
    ensures v.Null? ==> PyStr(codec, v) == "None"
    ensures v.Bool? ==> PyStr(codec, v) == (if v.b then "True" else "False")
    ensures v.Int? ==> |PyStr(codec, v)| > 0 && (PyStr(codec, v)[0] == '-' <==> v.i < 0)
    ensures v.Str? ==> PyStr(codec, v) == v.s
  {
  }

  /** `str()` of an int reads back as that int. */
  lemma PyStrOfIntReadsBack(codec: Codec, i: int)
    ensures |PyStr(codec, Int(i))| > 0
    ensures var r := PyStr(codec, Int(i));
            (r[0] == '-' ==> Text.IsDecimal(r[1..])) && (r[0] != '-' ==> Text.IsDecimal(r))
            && Text.ReadInt(r) == i
  {
    Text.IntToStringIsDecimal(i);
  }
}
